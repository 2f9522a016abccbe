/**
 * The company loop of etl/scripts/load_10k_full.py: resume from an index,
 * skip companies already loaded, charge each SecBlast fetch to one of two
 * keys split at company 50, stop once the chosen key's budget is spent, and
 * count one outcome per company. The database check, the fetch and the
 * processing-and-storing step are given per company.
 */
module Load10kFull {
  import opened Wrappers
  import Fetchers

  /** `SECBLAST_DAILY_LIMIT_PER_KEY` */
  const DailyLimitPerKey: nat := 95

  /** Companies up to this 1-based index use key 1. */
  const KeySplit: int := 50

  /** The calls one fetch is charged with. */
  const CallsPerFetch: nat := 2

  /**
   * What the outside world does for one company: whether `check_10k_exists`
   * answers (and what), how `fetch_latest_10k` ends, and whether processing
   * and storing the filing go through without raising.
   */
  datatype Company = Company(alreadyLoaded: Option<bool>, fetch: Fetchers.FetchOutcome, stored: bool)

  /** The `stats` dictionary. */
  datatype Stats = Stats(key1Success: nat, key1Calls: nat, key2Success: nat, key2Calls: nat,
                         skipped: nat, failed: nat, noData: nat)

  const NoStats := Stats(0, 0, 0, 0, 0, 0, 0)

  /** The companies counted in one of the outcome counters. */
  function Processed(s: Stats): nat
  {
    s.key1Success + s.key2Success + s.skipped + s.failed + s.noData
  }

  /** `total_success == len(NASDAQ100_TICKERS)` */
  predicate Complete(s: Stats, total: nat)
  {
    s.key1Success + s.key2Success + s.skipped == total
  }

  /** Where `tickers[start_from:]` begins, with Python's clamping of out-of-range and negative starts. */
  function SliceStart(startFrom: int, n: nat): (lo: nat)
    ensures lo <= n
    ensures 0 <= startFrom <= n ==> lo == startFrom
  {
    if startFrom < 0 then (if n + startFrom < 0 then 0 else n + startFrom)
    else if startFrom > n then n
    else startFrom
  }

  /** The budget test made before a fetch: whether `calls` already used still allow one under `limit`. */
  type BudgetCheck = (nat, nat) -> bool

  /** As written: stop only once the counter has reached the limit. */
  function NotReached(calls: nat, limit: nat): bool
  {
    calls < limit
  }

  /** Stop unless the whole fetch still fits under the limit. */
  function FetchFits(calls: nat, limit: nat): bool
  {
    calls + CallsPerFetch <= limit
  }

  /** One company: the next stats, or the `break` of the loop. */
  datatype Step = Next(stats: Stats) | Stop

  /** One pass of the loop body for the company with 1-based index `actualIdx`. */
  function StepOf(c: Company, forceReload: bool, actualIdx: int, limit: nat, check: BudgetCheck, s: Stats): Step
  {
    if !forceReload && c.alreadyLoaded.None? then Next(s.(failed := s.failed + 1))
    else if !forceReload && c.alreadyLoaded.value then Next(s.(skipped := s.skipped + 1))
    else
      var key1 := actualIdx <= KeySplit;
      var calls := if key1 then s.key1Calls else s.key2Calls;
      if !check(calls, limit) then Stop
      else if c.fetch.Raised? then Next(s.(failed := s.failed + 1))
      else
        var charged := if key1 then s.(key1Calls := s.key1Calls + CallsPerFetch)
                       else s.(key2Calls := s.key2Calls + CallsPerFetch);
        if c.fetch.NotFound? then Next(charged.(noData := charged.noData + 1))
        else if !c.stored then Next(charged.(failed := charged.failed + 1))
        else if key1 then Next(charged.(key1Success := charged.key1Success + 1))
        else Next(charged.(key2Success := charged.key2Success + 1))
  }

  /** The final stats, and the position at which the loop broke off, if it did. */
  datatype Outcome = Outcome(stats: Stats, stoppedAt: Option<nat>)

  /** The loop from list position `p` on; position `p` has 1-based index `startFrom + (p - lo) + 1`. */
  function RunFrom(cs: seq<Company>, forceReload: bool, startFrom: int, lo: nat, limit: nat, check: BudgetCheck,
                   p: nat, s: Stats): Outcome
    requires lo <= p <= |cs|
    decreases |cs| - p
  {
    if p == |cs| then Outcome(s, None)
    else
      match StepOf(cs[p], forceReload, startFrom + (p - lo) + 1, limit, check, s)
      case Stop => Outcome(s, Some(p))
      case Next(s') => RunFrom(cs, forceReload, startFrom, lo, limit, check, p + 1, s')
  }

  /** What `main` ends with after the loop. */
  function Run(cs: seq<Company>, forceReload: bool, startFrom: int, limit: nat, check: BudgetCheck): Outcome
  {
    var lo := SliceStart(startFrom, |cs|);
    RunFrom(cs, forceReload, startFrom, lo, limit, check, lo, NoStats)
  }

  /**
   * `main`'s loop over the companies, with the summary's completeness
   * verdict. `check` is the budget test; the script's own is `NotReached`.
   */
  method LoadAll(cs: seq<Company>, forceReload: bool, startFrom: int, limit: nat, check: BudgetCheck)
    returns (stats: Stats, stoppedAt: Option<nat>, complete: bool)
    ensures Outcome(stats, stoppedAt) == Run(cs, forceReload, startFrom, limit, check)
    ensures complete <==> Complete(stats, |cs|)
  {
    var lo := SliceStart(startFrom, |cs|);
    stats := NoStats;
    stoppedAt := None;
    var p := lo;
    while p < |cs|
      invariant lo <= p <= |cs|
      invariant Run(cs, forceReload, startFrom, limit, check) == RunFrom(cs, forceReload, startFrom, lo, limit, check, p, stats)
      decreases |cs| - p
    {
      var actualIdx := startFrom + (p - lo) + 1;
      var c := cs[p];
      if !forceReload {
        if c.alreadyLoaded.None? {
          stats := stats.(failed := stats.failed + 1);
          p := p + 1;
          continue;
        }
        if c.alreadyLoaded.value {
          stats := stats.(skipped := stats.skipped + 1);
          p := p + 1;
          continue;
        }
      }
      var key1 := actualIdx <= KeySplit;
      var currentCalls := if key1 then stats.key1Calls else stats.key2Calls;
      if !check(currentCalls, limit) {
        stoppedAt := Some(p);
        break;
      }
      if c.fetch.Raised? {
        stats := stats.(failed := stats.failed + 1);
        p := p + 1;
        continue;
      }
      if key1 {
        stats := stats.(key1Calls := stats.key1Calls + CallsPerFetch);
      } else {
        stats := stats.(key2Calls := stats.key2Calls + CallsPerFetch);
      }
      if c.fetch.NotFound? {
        stats := stats.(noData := stats.noData + 1);
        p := p + 1;
        continue;
      }
      if !c.stored {
        stats := stats.(failed := stats.failed + 1);
      } else if key1 {
        stats := stats.(key1Success := stats.key1Success + 1);
      } else {
        stats := stats.(key2Success := stats.key2Success + 1);
      }
      p := p + 1;
    }
    complete := stats.key1Success + stats.key2Success + stats.skipped == |cs|;
  }

  // ------------------------------------------------------------ properties

  /**
   * Every pass that does not break adds exactly one to the outcome
   * counters; a skip or a failed existence check uses no calls; a fetch
   * that returns charges exactly its own key, one that raises charges none;
   * and the other key's counters never move.
   */
  lemma StepCounts(c: Company, forceReload: bool, actualIdx: int, limit: nat, check: BudgetCheck, s: Stats)
    ensures var r := StepOf(c, forceReload, actualIdx, limit, check, s);
      && (r.Next? ==> Processed(r.stats) == Processed(s) + 1)
      && (r.Next? && !forceReload && c.alreadyLoaded != Some(false) ==>
            r.stats.key1Calls == s.key1Calls && r.stats.key2Calls == s.key2Calls)
      && (r.Next? && (forceReload || c.alreadyLoaded == Some(false)) ==>
            var charge := if c.fetch.Raised? then 0 else CallsPerFetch;
            if actualIdx <= KeySplit
            then r.stats.key1Calls == s.key1Calls + charge && r.stats.key2Calls == s.key2Calls
                 && r.stats.key2Success == s.key2Success
            else r.stats.key2Calls == s.key2Calls + charge && r.stats.key1Calls == s.key1Calls
                 && r.stats.key1Success == s.key1Success)
      && (r.Stop? <==> (forceReload || c.alreadyLoaded == Some(false)) &&
                       !check(if actualIdx <= KeySplit then s.key1Calls else s.key2Calls, limit))
  {
    if !forceReload && c.alreadyLoaded.None? {
    } else if !forceReload && c.alreadyLoaded.value {
    } else {
      assert forceReload || c.alreadyLoaded == Some(false);
    }
  }

  /** Each company handled before the loop ends is counted exactly once. */
  lemma {:induction false} OneOutcomeEach(cs: seq<Company>, forceReload: bool, startFrom: int, lo: nat, limit: nat,
                                          check: BudgetCheck, p: nat, s: Stats)
    requires lo <= p <= |cs|
    ensures var r := RunFrom(cs, forceReload, startFrom, lo, limit, check, p, s);
      && (r.stoppedAt.None? ==> Processed(r.stats) == Processed(s) + (|cs| - p))
      && (r.stoppedAt.Some? ==> p <= r.stoppedAt.value < |cs| &&
                                Processed(r.stats) == Processed(s) + (r.stoppedAt.value - p))
    decreases |cs| - p
  {
    if p < |cs| {
      var st := StepOf(cs[p], forceReload, startFrom + (p - lo) + 1, limit, check, s);
      StepCounts(cs[p], forceReload, startFrom + (p - lo) + 1, limit, check, s);
      if st.Next? {
        OneOutcomeEach(cs, forceReload, startFrom, lo, limit, check, p + 1, st.stats);
      }
    }
  }

  /** A run that is not broken off and is complete has no failures and no missing filings. */
  lemma CompleteMeansNoLosses(cs: seq<Company>, forceReload: bool, startFrom: int, limit: nat, check: BudgetCheck)
    requires var r := Run(cs, forceReload, startFrom, limit, check); Complete(r.stats, |cs|)
    ensures var r := Run(cs, forceReload, startFrom, limit, check);
      r.stoppedAt.None? && r.stats.failed == 0 && r.stats.noData == 0 && SliceStart(startFrom, |cs|) == 0
  {
    CompleteFrom(cs, forceReload, startFrom, SliceStart(startFrom, |cs|), limit, check);
  }

  lemma CompleteFrom(cs: seq<Company>, forceReload: bool, startFrom: int, lo: nat, limit: nat, check: BudgetCheck)
    requires lo <= |cs|
    requires Complete(RunFrom(cs, forceReload, startFrom, lo, limit, check, lo, NoStats).stats, |cs|)
    ensures var r := RunFrom(cs, forceReload, startFrom, lo, limit, check, lo, NoStats);
      r.stoppedAt.None? && r.stats.failed == 0 && r.stats.noData == 0 && lo == 0
  {
    OneOutcomeEach(cs, forceReload, startFrom, lo, limit, check, lo, NoStats);
  }

  /**
   * With the script's check, a key's counter never passes the limit by more
   * than one call: the test looks at the counter before the fetch, and a
   * fetch costs two.
   */
  lemma {:induction false} AsWrittenBound(cs: seq<Company>, forceReload: bool, startFrom: int, lo: nat, limit: nat,
                                          p: nat, s: Stats)
    requires lo <= p <= |cs|
    requires s.key1Calls <= limit + 1 && s.key2Calls <= limit + 1
    ensures var r := RunFrom(cs, forceReload, startFrom, lo, limit, NotReached, p, s);
      r.stats.key1Calls <= limit + 1 && r.stats.key2Calls <= limit + 1
    decreases |cs| - p
  {
    if p < |cs| {
      var st := StepOf(cs[p], forceReload, startFrom + (p - lo) + 1, limit, NotReached, s);
      StepCounts(cs[p], forceReload, startFrom + (p - lo) + 1, limit, NotReached, s);
      if st.Next? {
        AsWrittenBound(cs, forceReload, startFrom, lo, limit, p + 1, st.stats);
      }
    }
  }

  /** With the fitting check, a key's counter never passes the limit. */
  lemma {:induction false} FitsStaysWithinLimit(cs: seq<Company>, forceReload: bool, startFrom: int, lo: nat, limit: nat,
                                                p: nat, s: Stats)
    requires lo <= p <= |cs|
    requires s.key1Calls <= limit && s.key2Calls <= limit
    ensures var r := RunFrom(cs, forceReload, startFrom, lo, limit, FetchFits, p, s);
      r.stats.key1Calls <= limit && r.stats.key2Calls <= limit
    decreases |cs| - p
  {
    if p < |cs| {
      var st := StepOf(cs[p], forceReload, startFrom + (p - lo) + 1, limit, FetchFits, s);
      StepCounts(cs[p], forceReload, startFrom + (p - lo) + 1, limit, FetchFits, s);
      if st.Next? {
        FitsStaysWithinLimit(cs, forceReload, startFrom, lo, limit, p + 1, st.stats);
      }
    }
  }

  /** A company that must be fetched, and whose fetch finds no 10-K. */
  const Missing := Company(Some(false), Fetchers.NotFound, true)

  /**
   * While every company is fetched under key 1 and the check lets it pass,
   * the key-1 counter grows by two per company.
   */
  lemma {:induction false} KeyOneCharges(cs: seq<Company>, limit: nat, check: BudgetCheck, p: nat, s: Stats)
    requires p <= |cs| <= KeySplit
    requires forall k :: 0 <= k < |cs| ==> cs[k] == Missing
    requires s.key1Calls == CallsPerFetch * p
    requires forall n: nat :: n < |cs| ==> check(CallsPerFetch * n, limit)
    ensures RunFrom(cs, false, 0, 0, limit, check, p, s).stoppedAt == None
    ensures RunFrom(cs, false, 0, 0, limit, check, p, s).stats.key1Calls == CallsPerFetch * |cs|
    ensures RunFrom(cs, false, 0, 0, limit, check, p, s).stats.key2Calls == s.key2Calls
    decreases |cs| - p
  {
    if p < |cs| {
      var st := StepOf(cs[p], false, p + 1, limit, check, s);
      assert st.Next? && st.stats.key1Calls == CallsPerFetch * (p + 1) && st.stats.key2Calls == s.key2Calls;
      KeyOneCharges(cs, limit, check, p + 1, st.stats);
    }
  }

  /**
   * As written, the daily limit of 95 is overrun: 48 companies that each
   * need a fetch all pass the check, and key 1 ends at 96 calls.
   */
  lemma LimitOvershoot()
    ensures var cs := seq(48, _ => Missing);
      Run(cs, false, 0, DailyLimitPerKey, NotReached).stats.key1Calls == 96 > DailyLimitPerKey
  {
    var cs := seq(48, _ => Missing);
    forall n: nat | n < |cs|
      ensures NotReached(CallsPerFetch * n, DailyLimitPerKey)
    {
    }
    KeyOneCharges(cs, DailyLimitPerKey, NotReached, 0, NoStats);
  }

  /**
   * As written, with nothing skipped from the start of the list, the run
   * breaks off at company 49 (list position 48) and never reaches the
   * companies of key 2.
   */
  lemma StopsAtFortyNine(cs: seq<Company>)
    requires |cs| > 48
    requires forall k :: 0 <= k < |cs| ==> cs[k] == Missing
    ensures Run(cs, false, 0, DailyLimitPerKey, NotReached).stoppedAt == Some(48)
    ensures Run(cs, false, 0, DailyLimitPerKey, NotReached).stats.key2Calls == 0
  {
    var head := cs[..48];
    forall n: nat | n < |head|
      ensures NotReached(CallsPerFetch * n, DailyLimitPerKey)
    {
    }
    KeyOneCharges(head, DailyLimitPerKey, NotReached, 0, NoStats);
    PrefixRun(cs, 48, DailyLimitPerKey, NotReached, 0, NoStats);
  }

  /** Running on a prefix agrees with running on the whole list until the prefix ends. */
  lemma {:induction false} PrefixRun(cs: seq<Company>, n: nat, limit: nat, check: BudgetCheck, p: nat, s: Stats)
    requires p <= n <= |cs|
    requires RunFrom(cs[..n], false, 0, 0, limit, check, p, s).stoppedAt == None
    ensures var r := RunFrom(cs[..n], false, 0, 0, limit, check, p, s);
      RunFrom(cs, false, 0, 0, limit, check, p, s) == RunFrom(cs, false, 0, 0, limit, check, n, r.stats)
    decreases n - p
  {
    if p < n {
      assert cs[..n][p] == cs[p];
      var st := StepOf(cs[p], false, p + 1, limit, check, s);
      PrefixRun(cs, n, limit, check, p + 1, st.stats);
    }
  }
}
