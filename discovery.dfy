/** Gathering the pool of channel identifiers: the curated seed plus scraped batches. */
module Discovery {
  import opened Types
  import opened Seqs

  /** The curated "known" channels; they seed the pool and are classified apart in the report. */
  const ScienceTeam: seq<string> := [
    "UC4a-Gbdw7vOaccHmFo40b9g", "UCYO_jab_esuFRV4b17AJtAw", "UCBcljXmuXPok9kT_VGA3adg", "UCJDIGW0ywWw9Kh9_vtwqxXA",
    "UCEBb1b_L6zDS3xTUrIALZOw", "UCoHhuummRZaIVX7bD4t2czg", "UC9-y-6csu5WGm29I7JiwpnA", "UC5029sGTV3cQWk9gh90X6-Q",
    "UC2Few2jF7zWvuxtXgoyat8g", "UCcF_QqLWOatOO5vHHlzK_Hw", "UCq0EGvLTyy-LLT1oUSO_0FQ", "UCoxcjq-8xIDTYp3uz647V5A",
    "UCLv7Gzc3VTO6ggFlXY0sOyw", "UC4EY_qnSeAP1xGsh61eOoJA", "UCmdTJKCLBVMQdPC3_kE7t1w", "UCLnGGRG__uGSPLBLzyhg8dQ",
    "UC-EnprmCZ3OXyAoG7vjVNCA", "UCYgL81lc7DOLNhnel1_J6Vg", "UCThyZpUXvT1atGZ0P1-2Vng", "UCIJ7ElhHMlz9lKh8_-dh4rA",
    "UC4XB8AQCiucZ7324-UaYA4A", "UC6KD6HqLbd24LOI26GeHeWw", "UCiEHVhv0SBMpP75JbzJShqw", "UCngehmCV-65FikHYUV1_qXA",
    "UCMWg8e_4hC6p5abek1VGuMw", "UCIuFVDoogw9ujgLbpTCM3sQ", "UCL9No2CVecC_8WazyduwHaw", "UCCabJxhy6wokraEGgFcYD5g",
    "UCC4FftDQK5gj4Ru2MgvraTw", "UCshPTHWDVDFPT3J-V2xBGRA", "UCxjYJHqLxAyMI0jHEbUnNtg", "UC3g-w83Cb5pEAu5UmRrge-A"]

  /** Discovery keeps asking for more identifiers until the pool holds this many. */
  const Target: nat := 110

  /** `addChannels`: every given identifier is added to the set, nothing is removed. */
  method AddChannels(m: set<string>, channels: seq<string>) returns (r: set<string>)
    ensures r == m + Elems(channels)
  {
    r := m;
    for i := 0 to |channels|
      invariant r == m + Elems(channels[..i])
    {
      assert channels[..i + 1] == channels[..i] + [channels[i]];
      r := r + {channels[i]};
    }
    assert channels[..|channels|] == channels;
  }

  /**
   * The identifiers contributed by a run of scrape attempts; `None` is a failed
   * request, which contributes nothing.
   */
  function Gathered(attempts: seq<Option<seq<string>>>): set<string> {
    if attempts == [] then {}
    else Gathered(attempts[..|attempts| - 1]) + Contribution(attempts[|attempts| - 1])
  }

  function Contribution(attempt: Option<seq<string>>): set<string> {
    if attempt.Some? then Elems(attempt.value) else {}
  }

  lemma GatheredStep(attempts: seq<Option<seq<string>>>, k: nat)
    requires k < |attempts|
    ensures Gathered(attempts[..k + 1]) == Gathered(attempts[..k]) + Contribution(attempts[k])
  {
    assert attempts[..k + 1][..k] == attempts[..k];
  }

  lemma {:induction false} GatheredGrows(attempts: seq<Option<seq<string>>>, k: nat)
    requires k <= |attempts|
    ensures Gathered(attempts[..k]) <= Gathered(attempts)
    decreases |attempts|
  {
    if k < |attempts| {
      var init := attempts[..|attempts| - 1];
      assert init[..k] == attempts[..k];
      GatheredGrows(init, k);
    } else {
      assert attempts[..k] == attempts;
    }
  }

  /** The pool after the first k attempts. */
  function Pool(seed: seq<string>, attempts: seq<Option<seq<string>>>, k: nat): set<string>
    requires k <= |attempts|
  {
    Elems(seed) + Gathered(attempts[..k])
  }

  /**
   * The discovery loop of `downloadStats`. `attempts` are the successive results of
   * `GetChannels`, one per iteration. The pool starts as the seed and grows by whole
   * batches; the size test is made only between batches, and the loop leaves as soon
   * as the pool reaches `Target`. `calls` is the number of attempts consumed. When
   * the attempts run out first, `done` is false: the program itself would go on
   * asking forever.
   */
  method Discover(seed: seq<string>, attempts: seq<Option<seq<string>>>)
    returns (cl: set<string>, calls: nat, done: bool)
    ensures calls <= |attempts|
    ensures cl == Pool(seed, attempts, calls)
    ensures done <==> |cl| >= Target
    ensures !done ==> calls == |attempts|
    ensures forall k :: 0 <= k < calls ==> |Pool(seed, attempts, k)| < Target
  {
    cl := AddChannels({}, seed);
    calls := 0;
    assert attempts[..0] == [];
    while |cl| < Target && calls < |attempts|
      invariant calls <= |attempts|
      invariant cl == Pool(seed, attempts, calls)
      invariant forall k :: 0 <= k < calls ==> |Pool(seed, attempts, k)| < Target
      decreases |attempts| - calls
    {
      ghost var before := calls;
      assert |Pool(seed, attempts, before)| < Target;
      cl := Attempt(seed, attempts, calls, cl);
      calls := calls + 1;
    }
    done := |cl| >= Target;
  }

  /** One iteration of the discovery loop: a failed request adds nothing. */
  method Attempt(seed: seq<string>, attempts: seq<Option<seq<string>>>, calls: nat, cl: set<string>)
    returns (cl': set<string>)
    requires calls < |attempts| && cl == Pool(seed, attempts, calls)
    ensures cl' == Pool(seed, attempts, calls + 1)
  {
    var st := attempts[calls];
    cl' := cl;
    if st.Some? {
      cl' := AddChannels(cl, st.value);
    }
    GatheredStep(attempts, calls);
  }

  /** The pool only grows: every seed identifier and every gathered one is kept. */
  lemma DiscoveredContainsSeedAndBatches(seed: seq<string>, attempts: seq<Option<seq<string>>>,
                                         calls: nat, cl: set<string>, k: nat)
    requires calls <= |attempts| && k <= calls
    requires cl == Pool(seed, attempts, calls)
    ensures Elems(seed) <= cl
    ensures Gathered(attempts[..k]) <= cl
  {
    assert attempts[..calls][..k] == attempts[..k];
    GatheredGrows(attempts[..calls], k);
  }

  /** `regexToChannel`: the first capture group of every match, in match order. */
  method RegexToChannel(s: seq<seq<string>>) returns (r: seq<string>)
    requires forall i :: 0 <= i < |s| ==> |s[i]| >= 2
    ensures |r| == |s|
    ensures forall i :: 0 <= i < |s| ==> r[i] == s[i][1]
  {
    var zz := new string[|s|];
    for i := 0 to |s|
      invariant forall k :: 0 <= k < i ==> zz[k] == s[k][1]
    {
      zz[i] := s[i][1];
    }
    r := zz[..];
  }

  /**
   * `for k := range cl { keys = append(keys, k) }`: the keys in Go's map
   * iteration order, which is unspecified, so any order may be picked here.
   */
  method Keys(cl: set<string>) returns (keys: seq<string>)
    ensures Elems(keys) == cl
    ensures Distinct(keys)
    ensures |keys| == |cl|
  {
    keys := [];
    var rest := cl;
    while rest != {}
      invariant rest !! Elems(keys) && rest + Elems(keys) == cl
      invariant Distinct(keys)
      invariant |keys| + |rest| == |cl|
      decreases |rest|
    {
      var k :| k in rest;
      DistinctSnoc(keys, k);
      keys := keys + [k];
      rest := rest - {k};
    }
  }
}
