/**
 * The resting-heart-rate sync: locate the spreadsheet row whose date cell
 * names a given day, and write the day's resting heart rate into column 2
 * of that row.
 *
 * The date column is the list of texts of column 1, row 1 first. The
 * free-text date parser is a parameter: any function from a cell's text to
 * an optional date-time.
 */
module Sync {
  import opened Wrappers
  import opened Calendar

  /** A free-text date parser: `dateparser.parse(text, languages=["fr"])`. */
  type Parser = string -> Option<DateTime>

  /**
   * A cell names the target day when it is not the empty string and the
   * parser reads a date-time from it whose date component is the target,
   * that is, which lies between wall-clock midnight of the target day and
   * the next midnight. Only "" counts as empty: a cell of blanks is handed
   * to the parser.
   */
  predicate CellMatches(cell: string, parse: Parser, target: Date)
    ensures CellMatches(cell, parse, target) <==>
      && cell != "" && parse(cell).Some?
      && Midnight(target) <= parse(cell).value.epochSecond < Midnight(target) + SecondsPerDay
  {
    DayHoldsItsInstants(target);
    cell != "" && parse(cell).Some? && DateOf(parse(cell).value) == target
  }

  /** The first matching row at or after index `i`, as a 1-based row number. */
  function FindRowFrom(column: seq<string>, parse: Parser, target: Date, i: nat): (r: Option<nat>)
    requires i <= |column|
    ensures r.Some? ==> i < r.value <= |column| && CellMatches(column[r.value - 1], parse, target)
    ensures r.Some? ==> forall k :: i <= k < r.value - 1 ==> !CellMatches(column[k], parse, target)
    ensures r.None? <==> forall k :: i <= k < |column| ==> !CellMatches(column[k], parse, target)
    decreases |column| - i
  {
    if i == |column| then None
    else if CellMatches(column[i], parse, target) then Some(i + 1)
    else FindRowFrom(column, parse, target, i + 1)
  }

  /**
   * Row resolution: the 1-based number of the first row whose cell names the
   * target day, or None when no cell does (in particular for an empty column).
   */
  function FindRow(column: seq<string>, parse: Parser, target: Date): (r: Option<nat>)
    ensures r.Some? ==> 1 <= r.value <= |column| && CellMatches(column[r.value - 1], parse, target)
    ensures r.Some? ==> forall k :: 0 <= k < r.value - 1 ==> !CellMatches(column[k], parse, target)
    ensures r.None? <==> forall k :: 0 <= k < |column| ==> !CellMatches(column[k], parse, target)
  {
    FindRowFrom(column, parse, target, 0)
  }

  /** The non-empty cells of `cells`, in order. */
  function NonEmptyCells(cells: seq<string>): (r: seq<string>)
    ensures |r| <= |cells|
    ensures forall c :: c in r <==> c in cells && c != ""
  {
    if cells == [] then []
    else
      var last := cells[|cells| - 1];
      NonEmptyCells(cells[..|cells| - 1]) + (if last == "" then [] else [last])
  }

  /** How many rows the scan visits: up to the match, or the whole column. */
  function ScanLength(column: seq<string>, parse: Parser, target: Date): (n: nat)
    ensures n <= |column|
  {
    match FindRow(column, parse, target)
    case Some(row) => row
    case None => |column|
  }

  /**
   * The texts handed to the parser, in order: every non-empty cell up to and
   * including the matching row. The empty string is never parsed, and every
   * other visited cell, blanks included, is.
   */
  function ParseCalls(column: seq<string>, parse: Parser, target: Date): (calls: seq<string>)
    ensures "" !in calls
    ensures forall k :: 0 <= k < ScanLength(column, parse, target) && column[k] != "" ==> column[k] in calls
    ensures forall c :: c in calls ==> c in column[..ScanLength(column, parse, target)]
  {
    var n := ScanLength(column, parse, target);
    assert forall k :: 0 <= k < n ==> column[..n][k] == column[k];
    NonEmptyCells(column[..n])
  }

  /**
   * `find_row_by_date`: scan the column from row 1, skip empty cells, parse
   * the others and return the first row whose parsed date is the target.
   * `parsed` records the texts handed to the parser.
   */
  method FindRowByDate(column: seq<string>, parse: Parser, target: Date)
    returns (row: Option<nat>, ghost parsed: seq<string>)
    ensures row == FindRow(column, parse, target)
    ensures parsed == ParseCalls(column, parse, target)
  {
    parsed := [];
    var i := 0;
    while i < |column|
      invariant 0 <= i <= |column|
      invariant FindRowFrom(column, parse, target, i) == FindRow(column, parse, target)
      invariant parsed == NonEmptyCells(column[..i])
    {
      var cell := column[i];
      assert column[..i + 1][..i] == column[..i];
      if cell == "" {
        i := i + 1;
        continue;
      }
      var parsedDate := parse(cell);
      parsed := parsed + [cell];
      if parsedDate.Some? && DateOf(parsedDate.value) == target {
        row := Some(i + 1);
        return;
      }
      i := i + 1;
    }
    assert column[..i] == column;
    row := None;
  }

  /**
   * A cell the parser cannot read behaves exactly like an empty cell: the
   * scan goes on past it and the result is the same.
   */
  lemma {:induction false} UnparsableCellIsSkipped(column: seq<string>, parse: Parser, target: Date, k: nat)
    requires k < |column| && parse(column[k]).None?
    ensures FindRow(column[k := ""], parse, target) == FindRow(column, parse, target)
  {
    var blanked := column[k := ""];
    forall i | 0 <= i < |column|
      ensures CellMatches(blanked[i], parse, target) == CellMatches(column[i], parse, target)
    {
    }
    SameMatchesSameRow(blanked, column, parse, parse, target, 0);
  }

  /**
   * Matching ignores the time of day: two parsers that fail on the same
   * cells and agree on the date of every parse find the same row.
   */
  lemma {:induction false} MatchIgnoresTimeOfDay(column: seq<string>, parse1: Parser, parse2: Parser, target: Date)
    requires forall c :: parse1(c).None? <==> parse2(c).None?
    requires forall c :: parse1(c).Some? ==> DateOf(parse1(c).value) == DateOf(parse2(c).value)
    ensures FindRow(column, parse1, target) == FindRow(column, parse2, target)
  {
    forall i | 0 <= i < |column|
      ensures CellMatches(column[i], parse1, target) == CellMatches(column[i], parse2, target)
    {
    }
    SameMatchesSameRow(column, column, parse1, parse2, target, 0);
  }

  /** Two columns that match the target at the same rows resolve to the same row. */
  lemma {:induction false} SameMatchesSameRow(a: seq<string>, b: seq<string>, parseA: Parser, parseB: Parser, target: Date, i: nat)
    requires i <= |a| == |b|
    requires forall k :: i <= k < |a| ==> CellMatches(a[k], parseA, target) == CellMatches(b[k], parseB, target)
    ensures FindRowFrom(a, parseA, target, i) == FindRowFrom(b, parseB, target, i)
    decreases |a| - i
  {
    if i < |a| {
      SameMatchesSameRow(a, b, parseA, parseB, target, i + 1);
    }
  }

  /**
   * An example: an empty first row, then the 19th, 20th and again 20th of
   * January 2026 (days 20472 and 20473) in the French format. The first 20th
   * is row 3; a column holding only the 18th has no row for the 20th.
   */
  lemma ResolverExamples(parse: Parser)
    requires parse("lun. 19 janv. 2026") == Some(DateTime(20472 * SecondsPerDay + 3600))
    requires parse("mar. 20 janv. 2026") == Some(DateTime(20473 * SecondsPerDay))
    requires parse("dim. 18 janv. 2026") == Some(DateTime(20471 * SecondsPerDay))
    ensures FindRow(["", "lun. 19 janv. 2026", "mar. 20 janv. 2026", "mar. 20 janv. 2026"], parse, Date(20473)) == Some(3)
    ensures FindRow(["dim. 18 janv. 2026"], parse, Date(20473)) == None
  {
    var column := ["", "lun. 19 janv. 2026", "mar. 20 janv. 2026", "mar. 20 janv. 2026"];
    assert !CellMatches(column[0], parse, Date(20473));
    assert !CellMatches(column[1], parse, Date(20473));
    assert CellMatches(column[2], parse, Date(20473));
    assert !CellMatches("dim. 18 janv. 2026", parse, Date(20473));
  }

  /** What `main` does to the outside world, in order. */
  datatype SyncStep =
    | FetchRestingHr(date: Date)
    | OpenSheet
    | ReadColumn(col: nat)
    | UpdateCell(row: nat, col: nat, value: int)

  const DateColumn: nat := 1
  const HeartRateColumn: nat := 2

  /**
   * `main`: the target is yesterday. With no resting heart rate the run
   * fails before the sheet is opened; with no matching row it fails without
   * writing; otherwise it writes the heart rate into column 2 of the row
   * found and succeeds. `restingHr` is the platform fetch, whose own errors
   * already read as None.
   */
  method SyncRestingHr(today: Date, restingHr: Date -> Option<int>, column: seq<string>, parse: Parser)
    returns (steps: seq<SyncStep>, exitCode: int)
    ensures var target := DaysBefore(today, 1);
      && |steps| >= 1 && steps[0] == FetchRestingHr(target)
      && (restingHr(target).None? ==> steps == [FetchRestingHr(target)] && exitCode == 1)
      && (restingHr(target).Some? && FindRow(column, parse, target).None? ==>
            steps == [FetchRestingHr(target), OpenSheet, ReadColumn(DateColumn)] && exitCode == 1)
      && (restingHr(target).Some? && FindRow(column, parse, target).Some? ==>
            steps == [FetchRestingHr(target), OpenSheet, ReadColumn(DateColumn),
                      UpdateCell(FindRow(column, parse, target).value, HeartRateColumn, restingHr(target).value)]
            && exitCode == 0)
    ensures forall s :: s in steps && s.UpdateCell? ==>
      s.col == HeartRateColumn && 1 <= s.row <= |column| && CellMatches(column[s.row - 1], parse, DaysBefore(today, 1))
    ensures exitCode == 0 <==> exists s :: s in steps && s.UpdateCell?
  {
    var target := DaysBefore(today, 1);
    steps := [FetchRestingHr(target)];
    var hr := restingHr(target);
    if hr.None? {
      exitCode := 1;
      return;
    }
    steps := steps + [OpenSheet, ReadColumn(DateColumn)];
    var row, _ := FindRowByDate(column, parse, target);
    if row.None? {
      exitCode := 1;
      return;
    }
    steps := steps + [UpdateCell(row.value, HeartRateColumn, hr.value)];
    assert steps[3] in steps;
    exitCode := 0;
  }
}
