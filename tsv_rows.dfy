/**
 * Validation of the input table. The rows arrive already split into columns;
 * the first row is a header. Every data row must have a title and an artist
 * column, both non-blank once stripped; the first offending row ends parsing
 * with an error naming its 1-based line number.
 */
module TsvRows {
  import opened Catalog
  import opened Text

  datatype ParseError =
    | EmptyOrHeaderOnly
    | TooFewColumns(line: nat)
    | BlankField(line: nat)

  /** A data row the parser accepts. */
  predicate ValidRow(row: seq<string>) {
    |row| >= 2 && Strip(row[0]) != [] && Strip(row[1]) != []
  }

  /** The error reported for an offending row on line `line`. */
  function RowError(row: seq<string>, line: nat): ParseError {
    if |row| < 2 then TooFewColumns(line) else BlankField(line)
  }

  /** The reference an accepted row yields: its first two columns, stripped. */
  function RowQuery(row: seq<string>): TrackQuery
    requires |row| >= 2
  {
    TrackQuery(Strip(row[0]), Strip(row[1]))
  }

  /** Data row `i` is the first one the parser rejects. */
  predicate FirstInvalidRow(rows: seq<seq<string>>, i: int) {
    && 1 <= i < |rows|
    && !ValidRow(rows[i])
    && (forall j :: 1 <= j < i ==> ValidRow(rows[j]))
  }

  /**
   * The row loop of `parse_tsv`. It fails with EmptyOrHeaderOnly when there is
   * no data row, and with the error of the first offending data row when there
   * is one; otherwise it yields one stripped reference per data row, in order,
   * ignoring columns after the second.
   */
  method ParseRows(rows: seq<seq<string>>) returns (r: Result<seq<TrackQuery>, ParseError>)
    ensures |rows| <= 1 ==> r.Err? && r.error == EmptyOrHeaderOnly
    ensures r.Ok? <==> |rows| > 1 && forall i :: 1 <= i < |rows| ==> ValidRow(rows[i])
    ensures r.Ok? ==> |r.value| == |rows| - 1
    ensures r.Ok? ==> forall i :: 0 <= i < |r.value| ==> r.value[i] == RowQuery(rows[i + 1])
    ensures r.Err? && |rows| > 1 ==> exists i :: FirstInvalidRow(rows, i) && r.error == RowError(rows[i], i + 1)
  {
    if |rows| <= 1 {
      return Err(EmptyOrHeaderOnly);
    }
    var tracks: seq<TrackQuery> := [];
    var i := 1;
    while i < |rows|
      invariant 1 <= i <= |rows|
      invariant forall j :: 1 <= j < i ==> ValidRow(rows[j])
      invariant |tracks| == i - 1
      invariant forall j :: 0 <= j < |tracks| ==> tracks[j] == RowQuery(rows[j + 1])
    {
      var row := rows[i];
      var lineNum := i + 1;
      if |row| < 2 {
        r := Err(TooFewColumns(lineNum));
        assert FirstInvalidRow(rows, i) && r.error == RowError(rows[i], i + 1);
        return;
      }
      var title := Strip(row[0]);
      var artist := Strip(row[1]);
      if title == [] || artist == [] {
        r := Err(BlankField(lineNum));
        assert FirstInvalidRow(rows, i) && r.error == RowError(rows[i], i + 1);
        return;
      }
      tracks := tracks + [TrackQuery(title, artist)];
      i := i + 1;
    }
    r := Ok(tracks);
  }

  /**
   * Every reference of an accepted table is non-blank and has no whitespace
   * at either end.
   */
  lemma AcceptedFieldsAreTrimmed(row: seq<string>)
    requires ValidRow(row)
    ensures RowQuery(row).title != [] && !IsSpace(RowQuery(row).title[0])
    ensures !IsSpace(RowQuery(row).title[|RowQuery(row).title| - 1])
    ensures RowQuery(row).artist != [] && !IsSpace(RowQuery(row).artist[0])
    ensures !IsSpace(RowQuery(row).artist[|RowQuery(row).artist| - 1])
  {
    StripSpec(row[0]);
    StripSpec(row[1]);
  }

  /** A row whose title or artist is only whitespace is rejected as a blank field, on whatever line. */
  lemma WhitespaceOnlyFieldRejected(row: seq<string>, line: nat)
    requires |row| >= 2
    requires (forall k :: 0 <= k < |row[0]| ==> IsSpace(row[0][k]))
          || (forall k :: 0 <= k < |row[1]| ==> IsSpace(row[1][k]))
    ensures !ValidRow(row)
    ensures RowError(row, line) == BlankField(line)
  {
    StripSpec(row[0]);
    StripSpec(row[1]);
  }
}
