/** The CSV grid: the header of month columns and one row of view counts per channel. */
module Table {
  import opened Types
  import opened Decimal
  import opened Sorting

  /** `Month.String()` for January..December. */
  function MonthName(m: Month): string {
    ["January", "February", "March", "April", "May", "June", "July",
     "August", "September", "October", "November", "December"][m - 1]
  }

  /** One column of the report: a month number and a year. */
  datatype Column = Column(month: int, year: int)

  /** The columns `from..to` of one year, one per month, in increasing order. */
  function MonthColumns(from: int, to: int, year: int): (cols: seq<Column>)
    ensures |cols| == if from <= to then to - from + 1 else 0
    ensures forall k :: 0 <= k < |cols| ==> cols[k] == Column(from + k, year)
  {
    seq(if from <= to then to - from + 1 else 0, k => Column(from + k, year))
  }

  /** The columns of the first header loop: months `startMonth..12` of `startYear`. */
  function StartYearColumns(startYear: int, startMonth: int): seq<Column> {
    MonthColumns(startMonth, 12, startYear)
  }

  /** The columns of the second header loop: months `1..endMonth` of `endYear`. */
  function EndYearColumns(endYear: int, endMonth: int): seq<Column> {
    MonthColumns(1, endMonth, endYear)
  }

  /** Both loops' columns, in the order the cells are appended. Nothing links the two years. */
  function Columns(startYear: int, startMonth: int, endYear: int, endMonth: int): seq<Column> {
    StartYearColumns(startYear, startMonth) + EndYearColumns(endYear, endMonth)
  }

  predicate RealMonths(cols: seq<Column>) {
    forall k :: 0 <= k < |cols| ==> 1 <= cols[k].month <= 12
  }

  /** `i.String() + "-" + strconv.Itoa(year)`. */
  function Label(c: Column): string
    requires 1 <= c.month <= 12
  {
    MonthName(c.month) + "-" + IntToString(c.year)
  }

  function Labels(cols: seq<Column>): (l: seq<string>)
    requires RealMonths(cols)
    ensures |l| == |cols| && forall k :: 0 <= k < |cols| ==> l[k] == Label(cols[k])
  {
    seq(|cols|, k requires 0 <= k < |cols| => Label(cols[k]))
  }

  const FirstHeaderCell := "Channel name"

  /** What the header row holds: the first cell, then one label per column. */
  function Header(cols: seq<Column>): (h: seq<string>)
    requires RealMonths(cols)
    ensures |h| == 1 + |cols| && h[0] == FirstHeaderCell
  {
    [FirstHeaderCell] + Labels(cols)
  }

  /** Every column either loop produces names a real month, once `startMonth` is at least 1. */
  lemma ColumnsAreRealMonths(startYear: int, startMonth: int, endYear: int, endMonth: int)
    requires 1 <= startMonth && endMonth <= 12
    ensures RealMonths(Columns(startYear, startMonth, endYear, endMonth))
  {
    var s: seq<Column>, e: seq<Column> := StartYearColumns(startYear, startMonth), EndYearColumns(endYear, endMonth);
    forall k | 0 <= k < |s + e|
      ensures 1 <= (s + e)[k].month <= 12
    {
      if k < |s| {
        assert (s + e)[k] == s[k];
      } else {
        assert (s + e)[k] == e[k - |s|];
      }
    }
  }

  /** One header loop: a label for each month `from..to` of `year`. */
  method AppendLabels(header0: seq<string>, from: int, to: int, year: int) returns (header: seq<string>)
    requires 1 <= from && to <= 12
    ensures RealMonths(MonthColumns(from, to, year))
    ensures header == header0 + Labels(MonthColumns(from, to, year))
  {
    ghost var cols := MonthColumns(from, to, year);
    header := header0;
    var i := from;
    ghost var k: nat := 0;
    while i <= to
      invariant i == from + k && k <= |cols|
      invariant header == header0 + Labels(cols[..k])
    {
      ghost var done := cols[..k];
      assert cols[..k + 1] == done + [Column(i, year)];
      assert Labels(done + [Column(i, year)]) == Labels(done) + [Label(Column(i, year))];
      AppendAssociative(header0, Labels(done), [Label(Column(i, year))]);
      header := header + [Label(Column(i, year))];
      i, k := i + 1, k + 1;
    }
    assert cols[..k] == cols;
  }

  /**
   * The header construction in `main`. `startMonth` is one past the earliest month,
   * so it is at least 2 when the caller computes it.
   */
  method BuildHeader(startYear: int, startMonth: int, endYear: int, endMonth: Month) returns (header: seq<string>)
    requires 1 <= startMonth
    ensures RealMonths(Columns(startYear, startMonth, endYear, endMonth))
    ensures header == Header(Columns(startYear, startMonth, endYear, endMonth))
  {
    header := [FirstHeaderCell];
    header := AppendLabels(header, startMonth, 12, startYear);
    header := AppendLabels(header, 1, endMonth, endYear);
    ColumnsAreRealMonths(startYear, startMonth, endYear, endMonth);
    LabelsAppend(StartYearColumns(startYear, startMonth), EndYearColumns(endYear, endMonth));
    AppendAssociative([FirstHeaderCell], Labels(StartYearColumns(startYear, startMonth)),
      Labels(EndYearColumns(endYear, endMonth)));
  }

  lemma LabelsAppend(a: seq<Column>, b: seq<Column>)
    requires RealMonths(a) && RealMonths(b)
    ensures RealMonths(a + b)
    ensures Labels(a + b) == Labels(a) + Labels(b)
  {
    assert forall k :: 0 <= k < |a + b| ==> (a + b)[k] == if k < |a| then a[k] else b[k - |a|];
  }

  predicate Matches(z: Stats, c: Column) {
    z.recordedAt.month == c.month && z.recordedAt.year == c.year
  }

  /** The samples of one (month, year), in stats order. */
  function Matching(st: seq<Stats>, c: Column): seq<Stats> {
    if st == [] then []
    else Matching(st[..|st| - 1], c) + (if Matches(st[|st| - 1], c) then [st[|st| - 1]] else [])
  }

  function ViewCells(ms: seq<Stats>): seq<string> {
    seq(|ms|, k requires 0 <= k < |ms| => IntToString(ms[k].views))
  }

  /** What `createListing` appends for one column: every match's views, or one empty cell. */
  function Cells(st: seq<Stats>, c: Column): (cells: seq<string>)
    ensures |cells| >= 1
  {
    if Matching(st, c) == [] then [""] else ViewCells(Matching(st, c))
  }

  function RowCells(st: seq<Stats>, cols: seq<Column>): seq<string> {
    if cols == [] then [] else RowCells(st, cols[..|cols| - 1]) + Cells(st, cols[|cols| - 1])
  }

  function Row(channel: Channel, cols: seq<Column>): seq<string> {
    [channel.title] + RowCells(channel.stats, cols)
  }

  /** The inner loop of `createListing` for one column, with its `found` flag. */
  method AppendColumn(line: seq<string>, st: seq<Stats>, month: int, year: int) returns (out: seq<string>)
    ensures out == line + Cells(st, Column(month, year))
  {
    ghost var c := Column(month, year);
    out := line;
    var found := false;
    for j := 0 to |st|
      invariant found <==> Matching(st[..j], c) != []
      invariant out == line + ViewCells(Matching(st[..j], c))
    {
      ghost var m := Matching(st[..j], c);
      assert st[..j + 1][..j] == st[..j];
      var z2 := st[j];
      if z2.recordedAt.month == month && z2.recordedAt.year == year {
        assert Matching(st[..j + 1], c) == m + [z2];
        ViewCellsSnoc(m, z2);
        out := out + [IntToString(z2.views)];
        found := true;
      } else {
        assert Matching(st[..j + 1], c) == m + [];
      }
    }
    assert st[..|st|] == st;
    if !found {
      out := out + [""];
    }
  }

  lemma ViewCellsSnoc(ms: seq<Stats>, z: Stats)
    ensures ViewCells(ms + [z]) == ViewCells(ms) + [IntToString(z.views)]
  {
    var l, r := ViewCells(ms + [z]), ViewCells(ms) + [IntToString(z.views)];
    assert |l| == |r|;
    forall k | 0 <= k < |l| ensures l[k] == r[k] {
      if k < |ms| {
        assert (ms + [z])[k] == ms[k];
      }
    }
  }

  /** Appending the next column's cells to a row built up to column k. */
  lemma RowStep(line0: seq<string>, st: seq<Stats>, cols: seq<Column>, k: nat, line: seq<string>)
    requires k < |cols|
    requires line == line0 + RowCells(st, cols[..k])
    ensures line + Cells(st, cols[k]) == line0 + RowCells(st, cols[..k + 1])
  {
    assert cols[..k + 1][..k] == cols[..k];
    var done, next := RowCells(st, cols[..k]), Cells(st, cols[k]);
    assert RowCells(st, cols[..k + 1]) == done + next;
    AppendAssociative(line0, done, next);
  }

  /** The cells of two runs of columns, one after the other. */
  lemma {:induction false} RowCellsAppend(st: seq<Stats>, a: seq<Column>, b: seq<Column>)
    ensures RowCells(st, a + b) == RowCells(st, a) + RowCells(st, b)
    decreases |b|
  {
    if b == [] {
      assert a + b == a;
    } else {
      var b' := b[..|b| - 1];
      assert (a + b)[..|a + b| - 1] == a + b';
      RowCellsAppend(st, a, b');
      AppendAssociative(RowCells(st, a), RowCells(st, b'), Cells(st, b[|b| - 1]));
    }
  }

  /** One loop of `createListing`: the cells of months `from..to` of `year`. */
  method AppendMonths(line0: seq<string>, st: seq<Stats>, from: int, to: int, year: int)
    returns (line: seq<string>)
    ensures line == line0 + RowCells(st, MonthColumns(from, to, year))
  {
    ghost var cols := MonthColumns(from, to, year);
    line := line0;
    var i := from;
    ghost var k: nat := 0;
    while i <= to
      invariant i == from + k && k <= |cols|
      invariant line == line0 + RowCells(st, cols[..k])
    {
      assert cols[k] == Column(i, year);
      RowStep(line0, st, cols, k, line);
      line := AppendColumn(line, st, i, year);
      i, k := i + 1, k + 1;
    }
    assert cols[..k] == cols;
  }

  /** `createListing`: the title, then the cells of each header column in turn. */
  method CreateListing(channel: Channel, startYear: int, endYear: int, startMonth: int, endMonth: int)
    returns (line: seq<string>)
    ensures line == Row(channel, Columns(startYear, startMonth, endYear, endMonth))
  {
    line := [channel.title];
    var st := channel.stats;
    line := AppendMonths(line, st, startMonth, 12, startYear);
    line := AppendMonths(line, st, 1, endMonth, endYear);
    RowCellsAppend(st, StartYearColumns(startYear, startMonth), EndYearColumns(endYear, endMonth));
    AppendAssociative([channel.title], RowCells(st, StartYearColumns(startYear, startMonth)),
      RowCells(st, EndYearColumns(endYear, endMonth)));
  }

  /* Facts about the column layout. */

  /** The header's size: max(0, 13 - startMonth) columns of the start year, then max(0, endMonth). */
  lemma ColumnsCount(startYear: int, startMonth: int, endYear: int, endMonth: int)
    ensures |Columns(startYear, startMonth, endYear, endMonth)| ==
      (if startMonth <= 12 then 13 - startMonth else 0) + (if endMonth >= 1 then endMonth else 0)
    ensures startMonth == 13 ==> Columns(startYear, startMonth, endYear, endMonth) == EndYearColumns(endYear, endMonth)
  {
  }

  /** Strict (year, month) order on columns. */
  predicate ColumnBefore(a: Column, b: Column) {
    a.year < b.year || (a.year == b.year && a.month < b.month)
  }

  /** Over a window spanning two different years, the columns strictly increase, so none repeats. */
  lemma ColumnsIncreasing(startYear: int, startMonth: int, endYear: int, endMonth: int)
    requires startYear < endYear
    ensures forall i, j :: 0 <= i < j < |Columns(startYear, startMonth, endYear, endMonth)| ==>
      ColumnBefore(Columns(startYear, startMonth, endYear, endMonth)[i], Columns(startYear, startMonth, endYear, endMonth)[j])
  {
    var s, e := StartYearColumns(startYear, startMonth), EndYearColumns(endYear, endMonth);
    forall i, j | 0 <= i < j < |s + e|
      ensures ColumnBefore((s + e)[i], (s + e)[j])
    {
      if j < |s| {
        assert (s + e)[i] == s[i] && (s + e)[j] == s[j];
      } else if i < |s| {
        assert (s + e)[i] == s[i] && (s + e)[j] == e[j - |s|];
      } else {
        assert (s + e)[i] == e[i - |s|] && (s + e)[j] == e[j - |s|];
      }
    }
  }

  /**
   * When the window starts and ends in the same year, both loops use that year, so
   * every month from `startMonth` to `endMonth` gets two columns.
   */
  lemma SingleYearWindowRepeatsMonths(year: int, startMonth: int, endMonth: int, m: int)
    requires 1 <= startMonth <= m <= endMonth <= 12
    ensures var cols, first := Columns(year, startMonth, year, endMonth), |StartYearColumns(year, startMonth)|;
      && first + m - 1 < |cols| && m - startMonth < first + m - 1
      && cols[m - startMonth] == Column(m, year) && cols[first + m - 1] == Column(m, year)
  {
    var s, e := StartYearColumns(year, startMonth), EndYearColumns(year, endMonth);
    assert (s + e)[m - startMonth] == s[m - startMonth];
    assert (s + e)[|s| + m - 1] == e[m - 1];
  }

  /**
   * `startMonth` is one past the earliest sample's month, so over a window spanning two
   * years that earliest month has no column of its own.
   */
  lemma EarliestMonthHasNoColumn(startYear: int, earliestMonth: Month, endYear: int, endMonth: int)
    requires startYear < endYear
    ensures Column(earliestMonth, startYear) !in Columns(startYear, earliestMonth + 1, endYear, endMonth)
  {
    var s, e := StartYearColumns(startYear, earliestMonth + 1), EndYearColumns(endYear, endMonth);
    forall k | 0 <= k < |s + e| ensures (s + e)[k] != Column(earliestMonth, startYear) {
      if k < |s| {
        assert (s + e)[k] == s[k];
      } else {
        assert (s + e)[k] == e[k - |s|];
      }
    }
  }

  /* Facts about labels. */

  lemma MonthNameInjective(a: Month, b: Month)
    ensures '-' !in MonthName(a)
    ensures MonthName(a) == MonthName(b) ==> a == b
  {
  }

  /** A '-'-free prefix ends at the first '-', so it can be read back off the joined string. */
  lemma SplitAtFirstDash(n1: string, r1: string, n2: string, r2: string)
    requires '-' !in n1 && '-' !in n2
    requires n1 + "-" + r1 == n2 + "-" + r2
    ensures n1 == n2 && r1 == r2
  {
    var w1, w2 := n1 + "-" + r1, n2 + "-" + r2;
    FirstDashAt(n1, r1);
    FirstDashAt(n2, r2);
    assert |n1| == |n2|;
    assert n1 == w1[..|n1|] && n2 == w2[..|n2|];
    assert r1 == w1[|n1| + 1..] && r2 == w2[|n2| + 1..];
  }

  lemma FirstDashAt(n: string, r: string)
    requires '-' !in n
    ensures (n + "-" + r)[|n|] == '-'
    ensures forall k :: 0 <= k < |n| ==> (n + "-" + r)[k] != '-'
  {
    forall k | 0 <= k < |n| ensures (n + "-" + r)[k] != '-' {
      assert (n + "-" + r)[k] == n[k];
    }
  }

  /** Different columns get different labels. */
  lemma LabelInjective(a: Column, b: Column)
    requires 1 <= a.month <= 12 && 1 <= b.month <= 12
    ensures Label(a) == Label(b) ==> a == b
  {
    if Label(a) == Label(b) {
      MonthNameInjective(a.month, b.month);
      MonthNameInjective(b.month, a.month);
      SplitAtFirstDash(MonthName(a.month), IntToString(a.year), MonthName(b.month), IntToString(b.year));
      IntToStringInjective(a.year, b.year);
    }
  }

  /** Over a window spanning two years, no two header cells coincide. */
  lemma HeaderDistinct(startYear: int, startMonth: int, endYear: int, endMonth: Month)
    requires startYear < endYear && 1 <= startMonth
    ensures RealMonths(Columns(startYear, startMonth, endYear, endMonth))
    ensures var h := Header(Columns(startYear, startMonth, endYear, endMonth));
      forall i, j :: 0 <= i < j < |h| ==> h[i] != h[j]
  {
    var cols := Columns(startYear, startMonth, endYear, endMonth);
    ColumnsAreRealMonths(startYear, startMonth, endYear, endMonth);
    ColumnsIncreasing(startYear, startMonth, endYear, endMonth);
    HeaderCellsDistinct(cols);
  }

  lemma LabelHasDash(c: Column)
    requires 1 <= c.month <= 12
    ensures '-' in Label(c) && '-' !in FirstHeaderCell
  {
    MonthNameInjective(c.month, c.month);
    FirstDashAt(MonthName(c.month), IntToString(c.year));
  }

  /** Header cells of pairwise different columns are pairwise different. */
  lemma HeaderCellsDistinct(cols: seq<Column>)
    requires RealMonths(cols)
    requires forall i, j :: 0 <= i < j < |cols| ==> ColumnBefore(cols[i], cols[j])
    ensures forall i, j :: 0 <= i < j < |Header(cols)| ==> Header(cols)[i] != Header(cols)[j]
  {
    var h := Header(cols);
    forall i, j | 0 <= i < j < |h| ensures h[i] != h[j] {
      if i == 0 {
        HeaderCellPair(cols, i, j);
      } else {
        assert ColumnBefore(cols[i - 1], cols[j - 1]);
        HeaderCellPair(cols, i, j);
      }
    }
  }

  /** Two header cells: the first cell has no '-', and labels of different columns differ. */
  lemma HeaderCellPair(cols: seq<Column>, i: nat, j: nat)
    requires RealMonths(cols) && i < j <= |cols|
    requires 0 < i ==> cols[i - 1] != cols[j - 1]
    ensures Header(cols)[i] != Header(cols)[j]
  {
    HeaderAt(cols, j);
    if i == 0 {
      LabelHasDash(cols[j - 1]);
    } else {
      HeaderAt(cols, i);
      LabelInjective(cols[i - 1], cols[j - 1]);
    }
  }

  lemma HeaderAt(cols: seq<Column>, k: nat)
    requires RealMonths(cols) && 1 <= k <= |cols|
    ensures Header(cols)[k] == Label(cols[k - 1])
  {
    IndexAfterFirst(FirstHeaderCell, Labels(cols), k);
  }

  lemma IndexInFirst<T>(a: seq<T>, b: seq<T>, k: nat)
    requires k < |a|
    ensures (a + b)[k] == a[k]
  {
  }

  lemma IndexAfterFirst<T>(x: T, b: seq<T>, k: nat)
    requires 1 <= k <= |b|
    ensures ([x] + b)[k] == b[k - 1]
  {
  }

  lemma IndexInSecond<T>(a: seq<T>, b: seq<T>, k: nat)
    requires |a| <= k < |a| + |b|
    ensures (a + b)[k] == b[k - |a|]
  {
  }

  /* Facts about the cells of a row. */

  /** `Matching` keeps exactly the samples of column c. */
  lemma {:induction false} MatchingIsFilter(st: seq<Stats>, c: Column)
    ensures forall z :: z in Matching(st, c) <==> z in st && Matches(z, c)
    ensures |Matching(st, c)| <= |st|
    decreases |st|
  {
    if st != [] {
      var init := st[..|st| - 1];
      assert st == init + [st[|st| - 1]];
      MatchingIsFilter(init, c);
    }
  }

  /** No sample of column c is kept exactly when no sample falls in c. */
  lemma {:induction false} MatchingEmptyIffNoMatch(st: seq<Stats>, c: Column)
    ensures Matching(st, c) == [] <==> forall i :: 0 <= i < |st| ==> !Matches(st[i], c)
    decreases |st|
  {
    if st != [] {
      var init := st[..|st| - 1];
      MatchingEmptyIffNoMatch(init, c);
      assert forall i :: 0 <= i < |init| ==> st[i] == init[i];
    }
  }

  /** A column's cells are one empty cell exactly when no sample falls in that column. */
  lemma CellsEmptyIffNoMatch(st: seq<Stats>, c: Column)
    ensures |Cells(st, c)| >= 1
    ensures Cells(st, c) == [""] <==> forall i :: 0 <= i < |st| ==> !Matches(st[i], c)
  {
    MatchingEmptyIffNoMatch(st, c);
    var ms := Matching(st, c);
    if ms != [] {
      IntToStringInjective(ms[0].views, ms[0].views);
      assert ViewCells(ms)[0] == IntToString(ms[0].views);
    }
  }

  /** With at most one sample per (month, year), each column matches at most one sample. */
  lemma {:induction false} AtMostOneMatch(st: seq<Stats>, c: Column)
    requires UniqueMonthYear(st)
    ensures |Matching(st, c)| <= 1
    decreases |st|
  {
    if st != [] {
      var init, z := st[..|st| - 1], st[|st| - 1];
      assert UniqueMonthYear(init);
      AtMostOneMatch(init, c);
      if Matches(z, c) {
        forall p | 0 <= p < |init| ensures !Matches(init[p], c) {
          assert st[p] == init[p];
        }
        MatchingEmptyIffNoMatch(init, c);
      }
    }
  }

  lemma CellOfUniqueSamples(st: seq<Stats>, c: Column)
    requires UniqueMonthYear(st)
    ensures |Cells(st, c)| == 1
    ensures (forall i :: 0 <= i < |st| ==> !Matches(st[i], c)) ==> Cells(st, c) == [""]
    ensures forall i :: 0 <= i < |st| && Matches(st[i], c) ==> Cells(st, c) == [IntToString(st[i].views)]
  {
    AtMostOneMatch(st, c);
    MatchingIsFilter(st, c);
    CellsEmptyIffNoMatch(st, c);
    forall i | 0 <= i < |st| && Matches(st[i], c) ensures Cells(st, c) == [IntToString(st[i].views)] {
      assert st[i] in Matching(st, c);
      assert Matching(st, c) == [st[i]];
    }
  }

  /** With at most one sample per (month, year), each column contributes exactly one cell. */
  lemma {:induction false} RowCellsAligned(st: seq<Stats>, cols: seq<Column>)
    requires forall c :: |Cells(st, c)| == 1
    ensures |RowCells(st, cols)| == |cols|
    ensures forall k :: 0 <= k < |cols| ==> RowCells(st, cols)[k] == Cells(st, cols[k])[0]
    decreases |cols|
  {
    if cols != [] {
      var init := cols[..|cols| - 1];
      var pre, last := RowCells(st, init), Cells(st, cols[|cols| - 1]);
      RowCellsAligned(st, init);
      assert RowCells(st, cols) == pre + last;
      forall k | 0 <= k < |cols| ensures (pre + last)[k] == Cells(st, cols[k])[0] {
        if k < |init| {
          IndexInFirst(pre, last, k);
          assert cols[k] == init[k];
        } else {
          IndexInSecond(pre, last, k);
        }
      }
    }
  }

  /**
   * A channel with at most one sample per (month, year) gets a row as long as the header:
   * its title under "Channel name", then under each label the views of that month's sample,
   * or an empty cell.
   */
  lemma RowMatchesHeader(channel: Channel, cols: seq<Column>)
    requires UniqueMonthYear(channel.stats) && RealMonths(cols)
    ensures |Row(channel, cols)| == |Header(cols)|
    ensures Row(channel, cols)[0] == channel.title
    ensures forall k, i :: 0 <= k < |cols| && 0 <= i < |channel.stats| && Matches(channel.stats[i], cols[k]) ==>
      Row(channel, cols)[k + 1] == IntToString(channel.stats[i].views)
    ensures forall k :: 0 <= k < |cols| ==>
      (Row(channel, cols)[k + 1] == "" <==> forall i :: 0 <= i < |channel.stats| ==> !Matches(channel.stats[i], cols[k]))
  {
    forall c ensures CellMeaning(channel.stats, c) {
      CellOfUniqueSamples(channel.stats, c);
      CellsEmptyIffNoMatch(channel.stats, c);
    }
    RowOfSingleCells(channel, cols);
  }

  /** Column c holds one cell: the views of a sample of c, or empty when c has none. */
  predicate CellMeaning(st: seq<Stats>, c: Column) {
    && |Cells(st, c)| == 1
    && (forall i :: 0 <= i < |st| && Matches(st[i], c) ==> Cells(st, c)[0] == IntToString(st[i].views))
    && (Cells(st, c)[0] == "" <==> forall i :: 0 <= i < |st| ==> !Matches(st[i], c))
  }

  lemma RowOfSingleCells(channel: Channel, cols: seq<Column>)
    requires forall c :: CellMeaning(channel.stats, c)
    requires RealMonths(cols)
    ensures |Row(channel, cols)| == |Header(cols)|
    ensures Row(channel, cols)[0] == channel.title
    ensures forall k, i :: 0 <= k < |cols| && 0 <= i < |channel.stats| && Matches(channel.stats[i], cols[k]) ==>
      Row(channel, cols)[k + 1] == IntToString(channel.stats[i].views)
    ensures forall k :: 0 <= k < |cols| ==>
      (Row(channel, cols)[k + 1] == "" <==> forall i :: 0 <= i < |channel.stats| ==> !Matches(channel.stats[i], cols[k]))
  {
    var st := channel.stats;
    forall c ensures |Cells(st, c)| == 1 {
      assert CellMeaning(st, c);
    }
    RowCellsAligned(st, cols);
    forall k | 0 <= k < |cols|
      ensures forall i :: 0 <= i < |st| && Matches(st[i], cols[k]) ==> Row(channel, cols)[k + 1] == IntToString(st[i].views)
      ensures Row(channel, cols)[k + 1] == "" <==> forall i :: 0 <= i < |st| ==> !Matches(st[i], cols[k])
    {
      assert CellMeaning(st, cols[k]);
      RowCellAt(channel, cols, k);
    }
  }

  /** The cell under column k of a row whose cells line up with its columns. */
  lemma RowCellAt(channel: Channel, cols: seq<Column>, k: nat)
    requires k < |cols| && CellMeaning(channel.stats, cols[k])
    requires |RowCells(channel.stats, cols)| == |cols|
    requires RowCells(channel.stats, cols)[k] == Cells(channel.stats, cols[k])[0]
    ensures forall i :: 0 <= i < |channel.stats| && Matches(channel.stats[i], cols[k]) ==>
      Row(channel, cols)[k + 1] == IntToString(channel.stats[i].views)
    ensures Row(channel, cols)[k + 1] == "" <==> forall i :: 0 <= i < |channel.stats| ==> !Matches(channel.stats[i], cols[k])
  {
    IndexAfterFirst(channel.title, RowCells(channel.stats, cols), k + 1);
  }

  lemma AppendAssociative<T>(a: seq<T>, b: seq<T>, c: seq<T>)
    ensures (a + b) + c == a + (b + c)
  {
  }

}
