/**
 * The report assembled in `main`: channels split into the known (science team) part and
 * the rest, the date window over all samples, each channel's samples sorted by time,
 * and the CSV grid of a header and one row per channel.
 */
module Report {
  import opened Types
  import opened Seqs
  import opened Sorting
  import opened Table

  /* Classification. */

  /** How many entries of team equal id. */
  function Occurrences(team: seq<string>, id: string): nat {
    if team == [] then 0
    else Occurrences(team[..|team| - 1], id) + (if team[|team| - 1] == id then 1 else 0)
  }

  function Copies(c: Channel, n: nat): seq<Channel> {
    seq(n, _ => c)
  }

  /**
   * The known part: the inner loop over the team has no `break`, so a channel is
   * appended once for every team entry equal to its id.
   */
  function Known(cs: seq<Channel>, team: seq<string>): seq<Channel> {
    if cs == [] then []
    else Known(cs[..|cs| - 1], team) + Copies(cs[|cs| - 1], Occurrences(team, cs[|cs| - 1].id))
  }

  /** The other part: every channel whose id is not in the team, in input order. */
  function Others(cs: seq<Channel>, team: seq<string>): seq<Channel> {
    if cs == [] then []
    else Others(cs[..|cs| - 1], team) + (if cs[|cs| - 1].id in team then [] else [cs[|cs| - 1]])
  }

  lemma {:induction false} OccurrencesZeroIff(team: seq<string>, id: string)
    ensures Occurrences(team, id) == 0 <==> id !in team
    decreases |team|
  {
    if team != [] {
      var init := team[..|team| - 1];
      assert team == init + [team[|team| - 1]];
      OccurrencesZeroIff(init, id);
    }
  }

  lemma {:induction false} OccurrencesOfDistinct(team: seq<string>, id: string)
    requires Distinct(team)
    ensures Occurrences(team, id) <= 1
    decreases |team|
  {
    if team != [] {
      var init := team[..|team| - 1];
      assert team == init + [team[|team| - 1]];
      OccurrencesOfDistinct(init, id);
      if team[|team| - 1] == id {
        assert id !in init;
        OccurrencesZeroIff(init, id);
      }
    }
  }

  lemma CopiesCount(c: Channel, n: nat, d: Channel)
    ensures multiset(Copies(c, n))[d] == if d == c then n else 0
    decreases n
  {
    if n > 0 {
      assert Copies(c, n) == Copies(c, n - 1) + [c];
      CopiesCount(c, n - 1, d);
    }
  }

  lemma MultiplyStep(m: int, o: int, one: bool)
    ensures (m + (if one then 1 else 0)) * o == m * o + (if one then o else 0)
    ensures m * 0 == 0 && m * 1 == m
  {
  }

  /** Each channel appears in the known part once per team entry naming it. */
  lemma {:induction false} KnownMultiplicity(cs: seq<Channel>, team: seq<string>, c: Channel)
    ensures multiset(Known(cs, team))[c] == multiset(cs)[c] * Occurrences(team, c.id)
    decreases |cs|
  {
    if cs != [] {
      var init, last := cs[..|cs| - 1], cs[|cs| - 1];
      assert cs == init + [last];
      KnownMultiplicity(init, team, c);
      CopiesCount(last, Occurrences(team, last.id), c);
      var m: int, o: int := multiset(init)[c], Occurrences(team, c.id);
      assert multiset(cs)[c] == m + (if last == c then 1 else 0);
      assert multiset(Known(cs, team))[c] ==
        multiset(Known(init, team))[c] + multiset(Copies(last, Occurrences(team, last.id)))[c];
      MultiplyStep(m, o, last == c);
    }
  }

  /** Each channel whose id is not in the team appears in the other part as often as in the input. */
  lemma {:induction false} OthersMultiplicity(cs: seq<Channel>, team: seq<string>, c: Channel)
    ensures multiset(Others(cs, team))[c] == if c.id in team then 0 else multiset(cs)[c]
    decreases |cs|
  {
    if cs != [] {
      var init, last := cs[..|cs| - 1], cs[|cs| - 1];
      assert cs == init + [last];
      OthersMultiplicity(init, team, c);
    }
  }

  /**
   * With a duplicate-free team, every channel lands in exactly one of the two parts:
   * together they are a rearrangement of the input, the known part holds only team
   * members and the other part none.
   */
  lemma ClassificationPartitions(cs: seq<Channel>, team: seq<string>)
    requires Distinct(team)
    ensures multiset(Known(cs, team)) + multiset(Others(cs, team)) == multiset(cs)
    ensures forall c :: c in Known(cs, team) ==> c.id in team
    ensures forall c :: c in Others(cs, team) ==> c.id !in team
  {
    forall c ensures (multiset(Known(cs, team)) + multiset(Others(cs, team)))[c] == multiset(cs)[c] {
      ChannelCountInParts(cs, team, c);
    }
    forall c | c in Known(cs, team) ensures c.id in team {
      KnownMultiplicity(cs, team, c);
      OccurrencesZeroIff(team, c.id);
      assert multiset(cs)[c] * 0 == 0;
    }
    forall c | c in Others(cs, team) ensures c.id !in team {
      OthersMultiplicity(cs, team, c);
    }
  }

  lemma ChannelCountInParts(cs: seq<Channel>, team: seq<string>, c: Channel)
    requires Distinct(team)
    ensures multiset(Known(cs, team))[c] + multiset(Others(cs, team))[c] == multiset(cs)[c]
  {
    KnownMultiplicity(cs, team, c);
    OthersMultiplicity(cs, team, c);
    OccurrencesOfDistinct(team, c.id);
    OccurrencesZeroIff(team, c.id);
    var o := Occurrences(team, c.id);
    assert o == if c.id in team then 1 else 0;
    MultiplyStep(multiset(cs)[c], o, false);
  }

  /** Both parts keep input order: the part of a concatenation is the concatenation of the parts. */
  lemma {:induction false} ClassificationKeepsOrder(a: seq<Channel>, b: seq<Channel>, team: seq<string>)
    ensures Known(a + b, team) == Known(a, team) + Known(b, team)
    ensures Others(a + b, team) == Others(a, team) + Others(b, team)
    decreases |b|
  {
    if b == [] {
      assert a + b == a;
    } else {
      var b', last := b[..|b| - 1], b[|b| - 1];
      assert (a + b)[..|a + b| - 1] == a + b';
      ClassificationKeepsOrder(a, b', team);
      AppendAssociative(Known(a, team), Known(b', team), Copies(last, Occurrences(team, last.id)));
      AppendAssociative(Others(a, team), Others(b', team), if last.id in team then [] else [last]);
    }
  }

  /* Sorting each channel's samples. */

  /** `sort.Slice(*c.Stats, ...)` on one channel. */
  function SortChannel(c: Channel): (r: Channel)
    ensures r.id == c.id && r.title == c.title
    ensures SortedByTime(r.stats) && multiset(r.stats) == multiset(c.stats)
  {
    c.(stats := SortByTime(c.stats))
  }

  function SortedChannels(cs: seq<Channel>): (r: seq<Channel>)
    ensures |r| == |cs|
    ensures forall i :: 0 <= i < |cs| ==> r[i] == SortChannel(cs[i])
  {
    if cs == [] then [] else SortedChannels(cs[..|cs| - 1]) + [SortChannel(cs[|cs| - 1])]
  }

  /* The window. */

  /** Every sample of every channel, channel after channel. */
  function AllSamples(cs: seq<Channel>): seq<Stats> {
    if cs == [] then [] else AllSamples(cs[..|cs| - 1]) + cs[|cs| - 1].stats
  }

  /** `if z.RecordedAt.Before(startDate) { startDate = z.RecordedAt }` over s. */
  function Earliest(start: Date, s: seq<Stats>): Date {
    if s == [] then start
    else
      var e := Earliest(start, s[..|s| - 1]);
      if Before(s[|s| - 1].recordedAt, e) then s[|s| - 1].recordedAt else e
  }

  /** `if z.RecordedAt.After(endDate) { endDate = z.RecordedAt }` over s. */
  function Latest(end: Date, s: seq<Stats>): Date {
    if s == [] then end
    else
      var e := Latest(end, s[..|s| - 1]);
      if Before(e, s[|s| - 1].recordedAt) then s[|s| - 1].recordedAt else e
  }

  /** The running minimum is no later than the start and than any sample, and is one of them. */
  lemma {:induction false} EarliestIsMinimum(start: Date, s: seq<Stats>)
    ensures !Before(start, Earliest(start, s))
    ensures forall i :: 0 <= i < |s| ==> !Before(s[i].recordedAt, Earliest(start, s))
    ensures Earliest(start, s) == start || exists i :: 0 <= i < |s| && s[i].recordedAt == Earliest(start, s)
    decreases |s|
  {
    if s != [] {
      var init, z := s[..|s| - 1], s[|s| - 1];
      EarliestIsMinimum(start, init);
      var e := Earliest(start, init);
      BeforeIsStrictTotalOrder(z.recordedAt, e, start);
      forall i | 0 <= i < |s| ensures !Before(s[i].recordedAt, Earliest(start, s)) {
        if i < |init| {
          assert s[i] == init[i];
          BeforeIsStrictTotalOrder(s[i].recordedAt, z.recordedAt, e);
        }
      }
      if Earliest(start, s) != start {
        if Earliest(start, s) == e {
          var i :| 0 <= i < |init| && init[i].recordedAt == e;
          assert s[i] == init[i];
        } else {
          assert s[|s| - 1].recordedAt == Earliest(start, s);
        }
      }
    }
  }

  /** The running maximum is no earlier than the start and than any sample, and is one of them. */
  lemma {:induction false} LatestIsMaximum(end: Date, s: seq<Stats>)
    ensures !Before(Latest(end, s), end)
    ensures forall i :: 0 <= i < |s| ==> !Before(Latest(end, s), s[i].recordedAt)
    ensures Latest(end, s) == end || exists i :: 0 <= i < |s| && s[i].recordedAt == Latest(end, s)
    decreases |s|
  {
    if s != [] {
      var init, z := s[..|s| - 1], s[|s| - 1];
      LatestIsMaximum(end, init);
      var e := Latest(end, init);
      BeforeIsStrictTotalOrder(end, e, z.recordedAt);
      forall i | 0 <= i < |s| ensures !Before(Latest(end, s), s[i].recordedAt) {
        if i < |init| {
          assert s[i] == init[i];
          BeforeIsStrictTotalOrder(e, z.recordedAt, s[i].recordedAt);
        }
      }
      if Latest(end, s) != end {
        if Latest(end, s) == e {
          var i :| 0 <= i < |init| && init[i].recordedAt == e;
          assert s[i] == init[i];
        } else {
          assert s[|s| - 1].recordedAt == Latest(end, s);
        }
      }
    }
  }

  lemma {:induction false} WindowOfConcatenation(start: Date, end: Date, a: seq<Stats>, b: seq<Stats>)
    ensures Earliest(start, a + b) == Earliest(Earliest(start, a), b)
    ensures Latest(end, a + b) == Latest(Latest(end, a), b)
    decreases |b|
  {
    if b == [] {
      assert a + b == a;
    } else {
      var b' := b[..|b| - 1];
      assert (a + b)[..|a + b| - 1] == a + b';
      WindowOfConcatenation(start, end, a, b');
    }
  }

  /**
   * When there is at least one sample and all of them lie strictly between the epoch and
   * now, the window runs from the earliest sample's time to the latest one's.
   */
  lemma WindowIsSampleRange(s: seq<Stats>, now: Date)
    requires s != []
    requires forall i :: 0 <= i < |s| ==> Before(Epoch, s[i].recordedAt) && Before(s[i].recordedAt, now)
    ensures exists i :: 0 <= i < |s| && s[i].recordedAt == Earliest(now, s)
    ensures exists i :: 0 <= i < |s| && s[i].recordedAt == Latest(Epoch, s)
    ensures forall i :: 0 <= i < |s| ==> !Before(s[i].recordedAt, Earliest(now, s)) && !Before(Latest(Epoch, s), s[i].recordedAt)
  {
    EarliestIsMinimum(now, s);
    LatestIsMaximum(Epoch, s);
    BeforeIsStrictTotalOrder(s[0].recordedAt, Earliest(now, s), now);
    BeforeIsStrictTotalOrder(Epoch, s[0].recordedAt, Latest(Epoch, s));
    BeforeIsStrictTotalOrder(Epoch, Epoch, Epoch);
    BeforeIsStrictTotalOrder(now, now, now);
  }

  /* The loop in `main` over the channels. */

  /** The inner loop over the team for one channel. */
  method ClassifyInto(science: seq<Channel>, c: Channel, team: seq<string>) returns (science': seq<Channel>, found: bool)
    ensures science' == science + Copies(c, Occurrences(team, c.id))
    ensures found <==> c.id in team
  {
    science' := science;
    found := false;
    for k := 0 to |team|
      invariant science' == science + Copies(c, Occurrences(team[..k], c.id))
      invariant found <==> c.id in team[..k]
    {
      assert team[..k + 1][..k] == team[..k];
      assert team[..k + 1] == team[..k] + [team[k]];
      if c.id == team[k] {
        assert Copies(c, Occurrences(team[..k], c.id) + 1) == Copies(c, Occurrences(team[..k], c.id)) + [c];
        science' := science' + [c];
        found := true;
      }
    }
    assert team[..|team|] == team;
  }

  /** The inner loop over one channel's samples that widens the window. */
  method WidenWindow(start: Date, end: Date, st: seq<Stats>) returns (start': Date, end': Date)
    ensures start' == Earliest(start, st) && end' == Latest(end, st)
  {
    start', end' := start, end;
    for k := 0 to |st|
      invariant start' == Earliest(start, st[..k]) && end' == Latest(end, st[..k])
    {
      assert st[..k + 1][..k] == st[..k];
      var z := st[k];
      if Before(z.recordedAt, start') {
        start' := z.recordedAt;
      }
      if Before(end', z.recordedAt) {
        end' := z.recordedAt;
      }
    }
    assert st[..|st|] == st;
  }

  lemma PrefixStep(channels: seq<Channel>, i: nat, team: seq<string>)
    requires i < |channels|
    ensures SortedChannels(channels[..i + 1]) == SortedChannels(channels[..i]) + [SortChannel(channels[i])]
    ensures AllSamples(channels[..i + 1]) == AllSamples(channels[..i]) + channels[i].stats
  {
    assert channels[..i + 1][..i] == channels[..i];
  }

  /**
   * The classification, window and sort loop of `main`. The program appends the channel
   * pointer and sorts its samples afterwards in the same iteration, so both parts end up
   * holding the sorted samples; here the sorted channel is what is appended.
   */
  method PrepareReport(channels: seq<Channel>, team: seq<string>, now: Date)
    returns (science: seq<Channel>, others: seq<Channel>, startDate: Date, endDate: Date)
    ensures science == Known(SortedChannels(channels), team)
    ensures others == Others(SortedChannels(channels), team)
    ensures startDate == Earliest(now, AllSamples(channels))
    ensures endDate == Latest(Epoch, AllSamples(channels))
  {
    science, others := [], [];
    startDate, endDate := now, Epoch;
    for i := 0 to |channels|
      invariant science == Known(SortedChannels(channels[..i]), team)
      invariant others == Others(SortedChannels(channels[..i]), team)
      invariant startDate == Earliest(now, AllSamples(channels[..i]))
      invariant endDate == Latest(Epoch, AllSamples(channels[..i]))
    {
      PrefixStep(channels, i, team);
      var c := SortChannel(channels[i]);
      ClassificationKeepsOrder(SortedChannels(channels[..i]), [c], team);
      assert Known([c], team) == Copies(c, Occurrences(team, c.id)) by {
        assert [c][..0] == [];
      }
      assert Others([c], team) == (if c.id in team then [] else [c]) by {
        assert [c][..0] == [];
      }
      var found;
      science, found := ClassifyInto(science, c, team);
      if !found {
        others := others + [c];
      }
      WindowOfConcatenation(now, Epoch, AllSamples(channels[..i]), channels[i].stats);
      startDate, endDate := WidenWindow(startDate, endDate, channels[i].stats);
    }
    assert channels[..|channels|] == channels;
  }

  /* The grid. */

  /** One row per channel, in order, each starting with its channel's title. */
  function Rows(cs: seq<Channel>, cols: seq<Column>): (r: seq<seq<string>>)
    ensures |r| == |cs|
  {
    if cs == [] then [] else Rows(cs[..|cs| - 1], cols) + [Row(cs[|cs| - 1], cols)]
  }

  lemma {:induction false} RowsAt(cs: seq<Channel>, cols: seq<Column>)
    ensures |Rows(cs, cols)| == |cs|
    ensures forall i :: 0 <= i < |cs| ==> Rows(cs, cols)[i] == Row(cs[i], cols)
    decreases |cs|
  {
    if cs != [] {
      var init := cs[..|cs| - 1];
      RowsAt(init, cols);
      forall i | 0 <= i < |cs| ensures Rows(cs, cols)[i] == Row(cs[i], cols) {
        if i < |init| {
          assert cs[i] == init[i];
        }
      }
    }
  }

  /** The header columns for a window: `startMonth` is the start date's month plus one. */
  function ReportColumns(startDate: Date, endDate: Date): seq<Column> {
    Columns(startDate.year, startDate.month + 1, endDate.year, endDate.month)
  }

  /** The CSV content of `main`: the header, the known channels' rows, then the others'. */
  function ReportGrid(channels: seq<Channel>, team: seq<string>, now: Date): seq<seq<string>> {
    var cols := ReportColumns(Earliest(now, AllSamples(channels)), Latest(Epoch, AllSamples(channels)));
    ColumnsAreRealMonths(Earliest(now, AllSamples(channels)).year, Earliest(now, AllSamples(channels)).month + 1,
      Latest(Epoch, AllSamples(channels)).year, Latest(Epoch, AllSamples(channels)).month);
    Grid(cols, Known(SortedChannels(channels), team), Others(SortedChannels(channels), team))
  }

  /** A header followed by the rows of two lists of channels. */
  function Grid(cols: seq<Column>, known: seq<Channel>, others: seq<Channel>): seq<seq<string>>
    requires RealMonths(cols)
  {
    [Header(cols)] + Rows(known, cols) + Rows(others, cols)
  }

  /** Where each part of a grid sits: the header at row 0, the known rows, then the others. */
  lemma GridRows(cols: seq<Column>, known: seq<Channel>, others: seq<Channel>)
    requires RealMonths(cols)
    ensures |Grid(cols, known, others)| == 1 + |known| + |others|
    ensures Grid(cols, known, others)[0] == Header(cols)
    ensures forall j :: 1 <= j < 1 + |known| ==> Grid(cols, known, others)[j] == Rows(known, cols)[j - 1]
    ensures forall j :: 1 + |known| <= j < |Grid(cols, known, others)| ==>
      Grid(cols, known, others)[j] == Rows(others, cols)[j - 1 - |known|]
  {
    forall j | 1 <= j < |Grid(cols, known, others)|
      ensures j < 1 + |known| ==> Grid(cols, known, others)[j] == Rows(known, cols)[j - 1]
      ensures 1 + |known| <= j ==> Grid(cols, known, others)[j] == Rows(others, cols)[j - 1 - |known|]
    {
      IndexAfterHead(Header(cols), Rows(known, cols), Rows(others, cols), j);
    }
  }

  /** Where row j sits in a header followed by two runs of rows. */
  lemma IndexAfterHead<T>(x: T, a: seq<T>, b: seq<T>, j: nat)
    requires 1 <= j < 1 + |a| + |b|
    ensures j < 1 + |a| ==> ([x] + a + b)[j] == a[j - 1]
    ensures 1 + |a| <= j ==> ([x] + a + b)[j] == b[j - 1 - |a|]
  {
  }

  /**
   * A grid over known and other channels: the header of `cols`, one row per known channel
   * with its title first, then one row per other channel with its title first.
   */
  lemma GridTitles(cols: seq<Column>, known: seq<Channel>, others: seq<Channel>, team: seq<string>)
    requires RealMonths(cols)
    requires forall i :: 0 <= i < |known| ==> known[i].id in team
    requires forall i :: 0 <= i < |others| ==> others[i].id !in team
    ensures var g := Grid(cols, known, others);
      && |g| == 1 + |known| + |others|
      && |g[0]| == 1 + |cols|
      && g[0][0] == FirstHeaderCell
      && (forall j :: 1 <= j < 1 + |known| ==> |g[j]| >= 1 && g[j][0] == known[j - 1].title && known[j - 1].id in team)
      && (forall j :: 1 + |known| <= j < |g| ==>
            |g[j]| >= 1 && g[j][0] == others[j - 1 - |known|].title && others[j - 1 - |known|].id !in team)
  {
    GridRows(cols, known, others);
    RowsAt(known, cols);
    RowsAt(others, cols);
  }

  /** One of the two row loops of `main`. */
  method AppendRows(csv0: seq<seq<string>>, cs: seq<Channel>, startYear: int, endYear: int, startMonth: int, endMonth: int)
    returns (csv: seq<seq<string>>)
    ensures csv == csv0 + Rows(cs, Columns(startYear, startMonth, endYear, endMonth))
  {
    ghost var cols := Columns(startYear, startMonth, endYear, endMonth);
    csv := csv0;
    for i := 0 to |cs|
      invariant csv == csv0 + Rows(cs[..i], cols)
    {
      assert cs[..i + 1][..i] == cs[..i];
      var l := CreateListing(cs[i], startYear, endYear, startMonth, endMonth);
      AppendAssociative(csv0, Rows(cs[..i], cols), [l]);
      csv := csv + [l];
    }
    assert cs[..|cs|] == cs;
  }

  /** `main` from the loaded channels to the grid handed to the CSV writer. */
  method BuildReport(channels: seq<Channel>, team: seq<string>, now: Date) returns (csv: seq<seq<string>>)
    ensures csv == ReportGrid(channels, team, now)
  {
    var science, others, startDate, endDate := PrepareReport(channels, team, now);
    var startYear := startDate.year;
    var startMonth := startDate.month + 1;
    var endYear := endDate.year;
    var endMonth := endDate.month;
    var header := BuildHeader(startYear, startMonth, endYear, endMonth);
    ghost var cols := ReportColumns(startDate, endDate);
    assert header == Header(cols);
    csv := [header];
    csv := AppendRows(csv, science, startYear, endYear, startMonth, endMonth);
    csv := AppendRows(csv, others, startYear, endYear, startMonth, endMonth);
    assert csv == Grid(cols, science, others);
  }

  /* Properties of the grid. */

  lemma {:induction false} KnownFromInput(cs: seq<Channel>, team: seq<string>)
    ensures forall c :: c in Known(cs, team) ==> c in cs && c.id in team
    ensures forall c :: c in Others(cs, team) ==> c in cs && c.id !in team
    decreases |cs|
  {
    if cs != [] {
      var init, last := cs[..|cs| - 1], cs[|cs| - 1];
      KnownFromInput(init, team);
      assert cs == init + [last];
      OccurrencesZeroIff(team, last.id);
      assert forall c :: c in Copies(last, Occurrences(team, last.id)) ==> c == last;
    }
  }

  /**
   * The report is the grid, over the columns of the sample window, of the known part and
   * then the other part of the sorted channels: every known channel's id is in the team
   * and no other channel's is. The window gives max(0, 12 - m) + endMonth columns, where
   * m is the earliest month; `GridTitles` says where the header and each row sit.
   */
  lemma GridLayout(channels: seq<Channel>, team: seq<string>, now: Date)
    ensures var start, end := Earliest(now, AllSamples(channels)), Latest(Epoch, AllSamples(channels));
      && RealMonths(ReportColumns(start, end))
      && |ReportColumns(start, end)| == (12 - start.month) + end.month
      && ReportGrid(channels, team, now) ==
           Grid(ReportColumns(start, end), Known(SortedChannels(channels), team), Others(SortedChannels(channels), team))
    ensures forall i :: 0 <= i < |Known(SortedChannels(channels), team)| ==>
      Known(SortedChannels(channels), team)[i].id in team
    ensures forall i :: 0 <= i < |Others(SortedChannels(channels), team)| ==>
      Others(SortedChannels(channels), team)[i].id !in team
  {
    var start, end := Earliest(now, AllSamples(channels)), Latest(Epoch, AllSamples(channels));
    ReportHeaderLength(start, end);
    PartsInTeam(SortedChannels(channels), team);
  }

  lemma PartsInTeam(cs: seq<Channel>, team: seq<string>)
    ensures forall i :: 0 <= i < |Known(cs, team)| ==> Known(cs, team)[i].id in team
    ensures forall i :: 0 <= i < |Others(cs, team)| ==> Others(cs, team)[i].id !in team
  {
    var known, others := Known(cs, team), Others(cs, team);
    KnownFromInput(cs, team);
    forall i | 0 <= i < |known| ensures known[i].id in team {
      assert known[i] in known;
    }
    forall i | 0 <= i < |others| ensures others[i].id !in team {
      assert others[i] in others;
    }
  }

  lemma ReportHeaderLength(start: Date, end: Date)
    ensures RealMonths(ReportColumns(start, end))
    ensures |Header(ReportColumns(start, end))| == 1 + (12 - start.month) + end.month
    ensures |ReportColumns(start, end)| == (12 - start.month) + end.month
  {
    ColumnsAreRealMonths(start.year, start.month + 1, end.year, end.month);
    ColumnsCount(start.year, start.month + 1, end.year, end.month);
  }

  /** Rows of channels with at most one sample per (month, year) are as long as the header. */
  lemma GridRectangular(cols: seq<Column>, known: seq<Channel>, others: seq<Channel>)
    requires RealMonths(cols)
    requires forall c :: c in known || c in others ==> UniqueMonthYear(c.stats)
    ensures forall r :: 0 <= r < |Grid(cols, known, others)| ==>
      |Grid(cols, known, others)[r]| == |Grid(cols, known, others)[0]|
  {
    var g := Grid(cols, known, others);
    GridRows(cols, known, others);
    RowsAt(known, cols);
    RowsAt(others, cols);
    forall r | 0 <= r < |g| ensures |g[r]| == |g[0]| {
      if 1 <= r < 1 + |known| {
        assert known[r - 1] in known;
        RowMatchesHeader(known[r - 1], cols);
      } else if 1 + |known| <= r {
        assert others[r - 1 - |known|] in others;
        RowMatchesHeader(others[r - 1 - |known|], cols);
      }
    }
  }

  /** Sorting keeps a channel's samples one per (month, year). */
  lemma SortedChannelsKeepUniqueMonths(channels: seq<Channel>, c: Channel)
    requires forall i :: 0 <= i < |channels| ==> UniqueMonthYear(channels[i].stats)
    requires c in SortedChannels(channels)
    ensures UniqueMonthYear(c.stats)
  {
    var j :| 0 <= j < |channels| && SortedChannels(channels)[j] == c;
    UniqueMonthYearUnderPermutation(channels[j].stats, c.stats);
  }

  /**
   * When every channel has at most one sample per (month, year), as the aggregation
   * leaves it, every row of the grid is as long as the header, and under each label a
   * row holds the views of that month's sample, or "" when the channel has none.
   */
  lemma GridIsRectangular(channels: seq<Channel>, team: seq<string>, now: Date)
    requires forall i :: 0 <= i < |channels| ==> UniqueMonthYear(channels[i].stats)
    ensures var g := ReportGrid(channels, team, now);
      forall r :: 0 <= r < |g| ==> |g[r]| == |g[0]|
  {
    var start, end := Earliest(now, AllSamples(channels)), Latest(Epoch, AllSamples(channels));
    var g, known, others := ReportGrid(channels, team, now),
        Known(SortedChannels(channels), team), Others(SortedChannels(channels), team);
    var cols := ReportColumns(start, end);
    GridLayout(channels, team, now);
    KnownFromInput(SortedChannels(channels), team);
    forall c | c in known || c in others ensures UniqueMonthYear(c.stats) {
      SortedChannelsKeepUniqueMonths(channels, c);
    }
    GridRectangular(cols, known, others);
  }

  /**
   * Over a window spanning two years, the month of the earliest sample gets no column:
   * the start-year labels begin one month after it.
   */
  lemma EarliestSampleMonthHasNoColumn(channels: seq<Channel>, now: Date)
    requires AllSamples(channels) != []
    requires forall i :: 0 <= i < |AllSamples(channels)| ==>
      Before(Epoch, AllSamples(channels)[i].recordedAt) && Before(AllSamples(channels)[i].recordedAt, now)
    requires Earliest(now, AllSamples(channels)).year < Latest(Epoch, AllSamples(channels)).year
    ensures exists i :: (
      && 0 <= i < |AllSamples(channels)|
      && Column(AllSamples(channels)[i].recordedAt.month, AllSamples(channels)[i].recordedAt.year) !in
           ReportColumns(Earliest(now, AllSamples(channels)), Latest(Epoch, AllSamples(channels))))
  {
    var s := AllSamples(channels);
    var start, end := Earliest(now, s), Latest(Epoch, s);
    WindowIsSampleRange(s, now);
    var i :| 0 <= i < |s| && s[i].recordedAt == start;
    EarliestMonthHasNoColumn(start.year, start.month, end.year, end.month);
  }
}
