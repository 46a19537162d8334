/** The failure aggregator behind `logResult`, stated on values: the state of
    one component's checks as a Snapshot, and what one call does to it as the
    function Observe. The class in UseChecks is proved to behave as Observe
    says; the lemmas here state what Observe does in each case. */
module Aggregator {
  import opened LoggerRules

  datatype Option<T> = None | Some(value: T)

  /** One violation found by a check predicate. */
  datatype Report = Report(rule: Rule, message: string)

  /** What a check hands to logResult: null, one report, or an array of
      reports whose entries may themselves be null. */
  datatype CheckResult =
    | Null
    | One(report: Report)
    | Many(items: seq<Option<Report>>)

  /** A deferred call into the host: trackError or removeError, with the
      component's token. */
  datatype Notification = Track(token: string) | Remove(token: string)

  /** One diagnostic handed to the logger: the report and whether its rule's
      action is the blocking one. */
  datatype LogEntry = LogEntry(report: Report, blocking: bool)

  /** The state one component's checks keep between calls: the list of check
      names that failed, the single error flag, the notifications queued for
      after the current interaction, and the diagnostics logged so far. */
  datatype Snapshot = Snapshot(
    failed: seq<string>,
    hasErrors: bool,
    pending: seq<Notification>,
    log: seq<LogEntry>)

  /** What a call ends with: it returns the error style or the empty style,
      or the logger threw on a blocking report. */
  datatype Outcome = Returned(errorStyle: bool) | Threw(report: Report)

  /** What a component instance is given: its token, the blocking decision
      for each rule, and whether the logger throws on a blocking report. */
  datatype Config = Config(
    token: string,
    isBlocking: Rule -> bool,
    throwOnBlocking: bool)

  /** The state of a freshly mounted component. */
  const Initial: Snapshot := Snapshot([], false, [], [])

  /** The first position of `x` in `s`, or -1 when it is absent. */
  function IndexOf(s: seq<string>, x: string): (i: int)
    ensures -1 <= i < |s|
    ensures i < 0 <==> x !in s
    ensures 0 <= i ==> s[i] == x && forall k :: 0 <= k < i ==> s[k] != x
  {
    if s == [] then -1
    else if s[0] == x then 0
    else
      var j := IndexOf(s[1..], x);
      if j < 0 then -1 else j + 1
  }

  /** A single result is handled as an array of one element. So a null
      result yields no report, a single report a batch of one, and an array
      is taken as it is. */
  function Items(result: CheckResult): (items: seq<Option<Report>>)
    ensures result.Null? ==> Present(items) == []
    ensures result.One? ==> Present(items) == [result.report]
    ensures result.Many? ==> items == result.items
  {
    match result
    case Null => [None]
    case One(r) => [Some(r)]
    case Many(xs) => xs
  }

  /** The non-null entries of `items`, in order. */
  function Present(items: seq<Option<Report>>): (rs: seq<Report>)
    ensures |rs| <= |items|
  {
    if items == [] then []
    else
      assert items == [items[0]] + items[1..];
      (if items[0].Some? then [items[0].value] else []) + Present(items[1..])
  }

  /** The diagnostics logged for `rs`: one per report, in the same order. */
  function Entries(rs: seq<Report>, isBlocking: Rule -> bool): (es: seq<LogEntry>)
    ensures |es| == |rs|
    ensures forall i :: 0 <= i < |rs| ==> es[i] == LogEntry(rs[i], isBlocking(rs[i].rule))
  {
    if rs == [] then []
    else [LogEntry(rs[0], isBlocking(rs[0].rule))] + Entries(rs[1..], isBlocking)
  }

  /** How many of `rs` are blocking. */
  function BlockingCount(rs: seq<Report>, isBlocking: Rule -> bool): (k: nat)
    ensures k <= |rs|
    ensures k == 0 <==> forall i :: 0 <= i < |rs| ==> !isBlocking(rs[i].rule)
  {
    if rs == [] then 0
    else (if isBlocking(rs[0].rule) then 1 else 0) + BlockingCount(rs[1..], isBlocking)
  }

  /** `k` copies of `x`. */
  function Repeat<T>(x: T, k: nat): (s: seq<T>)
    ensures |s| == k
    ensures forall i :: 0 <= i < k ==> s[i] == x
  {
    if k == 0 then [] else [x] + Repeat(x, k - 1)
  }

  /** The reports up to and including the first blocking one. */
  function UpToFirstBlocking(rs: seq<Report>, isBlocking: Rule -> bool): (pre: seq<Report>)
    requires BlockingCount(rs, isBlocking) > 0
    ensures 0 < |pre| <= |rs| && pre == rs[..|pre|]
    ensures isBlocking(pre[|pre| - 1].rule)
    ensures forall i :: 0 <= i < |pre| - 1 ==> !isBlocking(pre[i].rule)
  {
    if isBlocking(rs[0].rule) then [rs[0]]
    else [rs[0]] + UpToFirstBlocking(rs[1..], isBlocking)
  }

  /** The `forEach` over the results: each non-null report is logged; the
      logger throws on a blocking one when it is configured to; otherwise a
      blocking report for a name that was absent when the call began (index
      below zero) records the name, queues a Track and raises the flag. The
      second component is the report the logger threw on, if any. */
  function Process(s: Snapshot, index: int, name: string, cfg: Config,
                   items: seq<Option<Report>>): (r: (Snapshot, Option<Report>))
    decreases |items|
    ensures !cfg.throwOnBlocking ==> r.1.None?
    ensures r.1.Some? ==> cfg.isBlocking(r.1.value.rule)
  {
    if items == [] then (s, None)
    else match items[0]
      case None => Process(s, index, name, cfg, items[1..])
      case Some(rep) =>
        var blocking := cfg.isBlocking(rep.rule);
        var logged := s.(log := s.log + [LogEntry(rep, blocking)]);
        if blocking && cfg.throwOnBlocking then (logged, Some(rep))
        else if !blocking || index >= 0 then Process(logged, index, name, cfg, items[1..])
        else
          var tracked := logged.(failed := logged.failed + [name],
                                 pending := logged.pending + [Track(cfg.token)],
                                 hasErrors := true);
          Process(tracked, index, name, cfg, items[1..])
  }

  /** The retraction before the forEach: a null result for a listed name
      while the flag is up cuts the list at the name's index, lowers the flag
      and queues a Remove. */
  function Cleared(s: Snapshot, name: string, result: CheckResult, cfg: Config): Snapshot
  {
    var index := IndexOf(s.failed, name);
    if result.Null? && index >= 0 && s.hasErrors
    then s.(failed := s.failed[..index], hasErrors := false,
            pending := s.pending + [Remove(cfg.token)])
    else s
  }

  /** One call of logResult(name, result). The index of the name is taken
      once, before anything changes; then the retraction, then the results
      are processed. The call returns the error style exactly when the flag
      is up afterwards, and without a throwing logger it always returns; a
      throw is on a blocking report of the batch. The log only grows. */
  function Observe(s: Snapshot, name: string, result: CheckResult, cfg: Config): (r: (Snapshot, Outcome))
    ensures r.1.Returned? ==> (r.1.errorStyle <==> r.0.hasErrors)
    ensures !cfg.throwOnBlocking ==> r.1.Returned?
    ensures r.1.Threw? ==> cfg.isBlocking(r.1.report.rule)
  {
    var index := IndexOf(s.failed, name);
    var (after, thrown) := Process(Cleared(s, name, result, cfg), index, name, cfg, Items(result));
    (after, if thrown.Some? then Threw(thrown.value) else Returned(after.hasErrors))
  }

  /** The state after `rs` were logged and `k` blocking reports recorded. */
  function AfterReports(s: Snapshot, name: string, cfg: Config, k: nat, rs: seq<Report>): Snapshot
  {
    Snapshot(s.failed + Repeat(name, k),
             s.hasErrors || k > 0,
             s.pending + Repeat(Track(cfg.token), k),
             s.log + Entries(rs, cfg.isBlocking))
  }

  /** What the instance keeps true: the flag is up only while some name is
      listed, and every queued notification carries the instance's token. */
  predicate Consistent(s: Snapshot, token: string)
  {
    && (s.hasErrors ==> s.failed != [])
    && forall n :: n in s.pending ==> n.token == token
  }

  // ---------------------------------------------------------------------
  // The results, whatever their shape

  lemma {:induction false} PresentAppend(a: seq<Option<Report>>, b: seq<Option<Report>>)
    ensures Present(a + b) == Present(a) + Present(b)
  {
    if a == [] {
      assert a + b == b;
    } else {
      assert (a + b)[0] == a[0];
      assert (a + b)[1..] == a[1..] + b;
      PresentAppend(a[1..], b);
    }
  }

  /** Each report occurs among the reports taken from an array exactly as
      often as it occurs there as a non-null entry. */
  lemma {:induction false} PresentCounts(items: seq<Option<Report>>, r: Report)
    ensures multiset(Present(items))[r] == multiset(items)[Some(r)]
  {
    if items != [] {
      PresentCounts(items[1..], r);
      assert items == [items[0]] + items[1..];
    }
  }

  /** A report is among those taken from an array exactly when it is one of
      the array's non-null entries. */
  lemma {:induction false} PresentMembers(items: seq<Option<Report>>, r: Report)
    ensures r in Present(items) <==> Some(r) in items
  {
    if items != [] {
      PresentMembers(items[1..], r);
      assert items == [items[0]] + items[1..];
    }
  }

  // ---------------------------------------------------------------------
  // The forEach

  lemma EntriesCons(rep: Report, rs: seq<Report>, isBlocking: Rule -> bool)
    ensures Entries([rep] + rs, isBlocking) == [LogEntry(rep, isBlocking(rep.rule))] + Entries(rs, isBlocking)
    ensures BlockingCount([rep] + rs, isBlocking) == (if isBlocking(rep.rule) then 1 else 0) + BlockingCount(rs, isBlocking)
  {
    assert ([rep] + rs)[1..] == rs;
  }

  lemma UpToFirstBlockingCons(rep: Report, rs: seq<Report>, isBlocking: Rule -> bool)
    requires BlockingCount([rep] + rs, isBlocking) > 0
    ensures isBlocking(rep.rule) ==> UpToFirstBlocking([rep] + rs, isBlocking) == [rep]
    ensures !isBlocking(rep.rule) ==>
      BlockingCount(rs, isBlocking) > 0 &&
      UpToFirstBlocking([rep] + rs, isBlocking) == [rep] + UpToFirstBlocking(rs, isBlocking)
  {
    EntriesCons(rep, rs, isBlocking);
    assert ([rep] + rs)[0] == rep && ([rep] + rs)[1..] == rs;
  }

  lemma LogThenEntries(log: seq<LogEntry>, rep: Report, rs: seq<Report>, isBlocking: Rule -> bool)
    ensures log + [LogEntry(rep, isBlocking(rep.rule))] + Entries(rs, isBlocking)
         == log + Entries([rep] + rs, isBlocking)
  {
    EntriesCons(rep, rs, isBlocking);
  }

  lemma AppendThenRepeat<T>(s: seq<T>, x: T, k: nat)
    ensures s + [x] + Repeat(x, k) == s + Repeat(x, k + 1)
  {
    assert Repeat(x, k + 1) == [x] + Repeat(x, k);
  }

  /** Logging one report, then the rest. */
  lemma AfterReportsLogged(s: Snapshot, name: string, cfg: Config, k: nat, rep: Report, rs: seq<Report>)
    ensures
      var logged := s.(log := s.log + [LogEntry(rep, cfg.isBlocking(rep.rule))]);
      AfterReports(logged, name, cfg, k, rs) == AfterReports(s, name, cfg, k, [rep] + rs)
  {
    LogThenEntries(s.log, rep, rs, cfg.isBlocking);
  }

  /** Logging and recording one blocking report, then the rest. */
  lemma AfterReportsTracked(s: Snapshot, name: string, cfg: Config, k: nat, rep: Report, rs: seq<Report>)
    ensures
      var logged := s.(log := s.log + [LogEntry(rep, cfg.isBlocking(rep.rule))]);
      var tracked := logged.(failed := logged.failed + [name],
                             pending := logged.pending + [Track(cfg.token)],
                             hasErrors := true);
      AfterReports(tracked, name, cfg, k, rs) == AfterReports(s, name, cfg, k + 1, [rep] + rs)
  {
    LogThenEntries(s.log, rep, rs, cfg.isBlocking);
    AppendThenRepeat(s.failed, name, k);
    AppendThenRepeat(s.pending, Track(cfg.token), k);
  }

  /** One step of the forEach: a null entry is skipped. */
  lemma ProcessSkipsNull(s: Snapshot, index: int, name: string, cfg: Config, items: seq<Option<Report>>)
    requires items != [] && items[0].None?
    ensures Process(s, index, name, cfg, items) == Process(s, index, name, cfg, items[1..])
    ensures Present(items) == Present(items[1..])
  {
  }

  /** One step of the forEach: a report that records nothing is logged. */
  lemma ProcessLogsOnly(s: Snapshot, index: int, name: string, cfg: Config, items: seq<Option<Report>>)
    requires items != [] && items[0].Some?
    requires !cfg.isBlocking(items[0].value.rule) || (index >= 0 && !cfg.throwOnBlocking)
    ensures
      var rep := items[0].value;
      var logged := s.(log := s.log + [LogEntry(rep, cfg.isBlocking(rep.rule))]);
      Process(s, index, name, cfg, items) == Process(logged, index, name, cfg, items[1..])
  {
  }

  /** One step of the forEach: a blocking report for an absent name is
      logged and recorded. */
  lemma ProcessRecords(s: Snapshot, index: int, name: string, cfg: Config, items: seq<Option<Report>>)
    requires items != [] && items[0].Some?
    requires cfg.isBlocking(items[0].value.rule) && index < 0 && !cfg.throwOnBlocking
    ensures
      var rep := items[0].value;
      var logged := s.(log := s.log + [LogEntry(rep, cfg.isBlocking(rep.rule))]);
      var tracked := logged.(failed := logged.failed + [name],
                             pending := logged.pending + [Track(cfg.token)],
                             hasErrors := true);
      Process(s, index, name, cfg, items) == Process(tracked, index, name, cfg, items[1..])
  {
  }

  /** Without a throw, processing logs every non-null report once, in order,
      and, for a name absent at the start of the call, records one Track and
      one copy of the name per blocking report. */
  lemma {:induction false} ProcessInOrder(s: Snapshot, index: int, name: string, cfg: Config,
                                          items: seq<Option<Report>>)
    requires !cfg.throwOnBlocking || BlockingCount(Present(items), cfg.isBlocking) == 0
    decreases |items|
    ensures
      var rs := Present(items);
      var k := if index >= 0 then 0 else BlockingCount(rs, cfg.isBlocking);
      Process(s, index, name, cfg, items) == (AfterReports(s, name, cfg, k, rs), None)
  {
    if items == [] {
      assert s.failed + [] == s.failed && s.pending + [] == s.pending && s.log + [] == s.log;
    } else if items[0].None? {
      ProcessSkipsNull(s, index, name, cfg, items);
      ProcessInOrder(s, index, name, cfg, items[1..]);
    } else {
      var rep := items[0].value;
      var rs := Present(items[1..]);
      assert Present(items) == [rep] + rs;
      EntriesCons(rep, rs, cfg.isBlocking);
      var blocking := cfg.isBlocking(rep.rule);
      var logged := s.(log := s.log + [LogEntry(rep, blocking)]);
      var rk := if index >= 0 then 0 else BlockingCount(rs, cfg.isBlocking);
      if !blocking || index >= 0 {
        ProcessLogsOnly(s, index, name, cfg, items);
        ProcessInOrder(logged, index, name, cfg, items[1..]);
        AfterReportsLogged(s, name, cfg, rk, rep, rs);
      } else {
        var tracked := logged.(failed := logged.failed + [name],
                               pending := logged.pending + [Track(cfg.token)],
                               hasErrors := true);
        ProcessRecords(s, index, name, cfg, items);
        ProcessInOrder(tracked, index, name, cfg, items[1..]);
        AfterReportsTracked(s, name, cfg, rk, rep, rs);
      }
    }
  }

  /** With the logger throwing, processing logs the reports up to the first
      blocking one and stops there, recording nothing else. */
  lemma {:induction false} ProcessStopsAtFirstBlocking(s: Snapshot, index: int, name: string,
                                                       cfg: Config, items: seq<Option<Report>>)
    requires cfg.throwOnBlocking && BlockingCount(Present(items), cfg.isBlocking) > 0
    decreases |items|
    ensures
      var pre := UpToFirstBlocking(Present(items), cfg.isBlocking);
      Process(s, index, name, cfg, items)
        == (s.(log := s.log + Entries(pre, cfg.isBlocking)), Some(pre[|pre| - 1]))
  {
    var rest := items[1..];
    assert items == [items[0]] + rest;
    PresentAppend([items[0]], rest);
    assert [items[0]][1..] == [];
    if items[0].None? {
      assert Present(items) == Present(rest);
      assert Process(s, index, name, cfg, items) == Process(s, index, name, cfg, rest);
      ProcessStopsAtFirstBlocking(s, index, name, cfg, rest);
    } else if cfg.isBlocking(items[0].value.rule) {
      ThrowAtHead(s, index, name, cfg, items[0].value, rest);
    } else {
      var rep := items[0].value;
      var logged := s.(log := s.log + [LogEntry(rep, false)]);
      assert Process(s, index, name, cfg, items) == Process(logged, index, name, cfg, rest);
      ProcessStopsAtFirstBlocking(logged, index, name, cfg, rest);
      PassOverHead(s, cfg, rep, Present(rest));
    }
  }

  /** A blocking report at the head is logged and thrown on. */
  lemma ThrowAtHead(s: Snapshot, index: int, name: string, cfg: Config, rep: Report,
                    rest: seq<Option<Report>>)
    requires cfg.throwOnBlocking && cfg.isBlocking(rep.rule)
    ensures
      var pre := UpToFirstBlocking([rep] + Present(rest), cfg.isBlocking);
      Process(s, index, name, cfg, [Some(rep)] + rest)
        == (s.(log := s.log + Entries(pre, cfg.isBlocking)), Some(pre[|pre| - 1]))
  {
    var items := [Some(rep)] + rest;
    assert items[0] == Some(rep);
    EntriesCons(rep, Present(rest), cfg.isBlocking);
    UpToFirstBlockingCons(rep, Present(rest), cfg.isBlocking);
    EntriesCons(rep, [], cfg.isBlocking);
    assert [rep] + [] == [rep];
    var e := LogEntry(rep, true);
    assert Entries([rep], cfg.isBlocking) == [e];
    assert Process(s, index, name, cfg, items) == (s.(log := s.log + [e]), Some(rep));
  }

  /** A non-blocking report at the head is logged before the rest. */
  lemma PassOverHead(s: Snapshot, cfg: Config, rep: Report, rs: seq<Report>)
    requires !cfg.isBlocking(rep.rule) && BlockingCount(rs, cfg.isBlocking) > 0
    ensures
      var pre := UpToFirstBlocking(rs, cfg.isBlocking);
      var all := UpToFirstBlocking([rep] + rs, cfg.isBlocking);
      && all == [rep] + pre
      && all[|all| - 1] == pre[|pre| - 1]
      && s.log + [LogEntry(rep, false)] + Entries(pre, cfg.isBlocking) == s.log + Entries(all, cfg.isBlocking)
  {
    EntriesCons(rep, rs, cfg.isBlocking);
    UpToFirstBlockingCons(rep, rs, cfg.isBlocking);
    EntriesCons(rep, UpToFirstBlocking(rs, cfg.isBlocking), cfg.isBlocking);
  }

  // ---------------------------------------------------------------------
  // One call of logResult

  /** A null result for a listed name while the flag is up cuts the list
      just before the name's first occurrence, lowers the flag, queues one
      Remove, and logs nothing. */
  lemma NullRetracts(s: Snapshot, name: string, cfg: Config)
    requires name in s.failed && s.hasErrors
    ensures
      var (s', o) := Observe(s, name, Null, cfg);
      && |s'.failed| < |s.failed| && s'.failed == s.failed[..|s'.failed|]
      && s.failed[|s'.failed|] == name && name !in s'.failed
      && !s'.hasErrors
      && s'.pending == s.pending + [Remove(cfg.token)]
      && s'.log == s.log
      && o == Returned(false)
  {
    assert Items(Null)[1..] == [];
  }

  /** A null result in any other state changes nothing at all. */
  lemma NullOtherwiseChangesNothing(s: Snapshot, name: string, cfg: Config)
    requires name !in s.failed || !s.hasErrors
    ensures Observe(s, name, Null, cfg) == (s, Returned(s.hasErrors))
  {
    assert Items(Null)[1..] == [];
  }

  /** A non-null result, when the logger does not throw: every non-null report
      is logged once, in order; the name is recorded once per blocking report,
      with a Track each, unless it was already listed when the call began. */
  lemma ReportsInOrder(s: Snapshot, name: string, result: CheckResult, cfg: Config)
    requires !result.Null?
    requires !cfg.throwOnBlocking || BlockingCount(Present(Items(result)), cfg.isBlocking) == 0
    ensures
      var rs := Present(Items(result));
      var k := if name in s.failed then 0 else BlockingCount(rs, cfg.isBlocking);
      Observe(s, name, result, cfg) == (AfterReports(s, name, cfg, k, rs), Returned(s.hasErrors || k > 0))
  {
    ProcessInOrder(s, IndexOf(s.failed, name), name, cfg, Items(result));
  }

  /** Reports none of which is blocking change only the log. */
  lemma NonBlockingOnlyLogs(s: Snapshot, name: string, result: CheckResult, cfg: Config)
    requires !result.Null?
    requires BlockingCount(Present(Items(result)), cfg.isBlocking) == 0
    ensures
      var (s', o) := Observe(s, name, result, cfg);
      && s'.failed == s.failed && s'.hasErrors == s.hasErrors && s'.pending == s.pending
      && s'.log == s.log + Entries(Present(Items(result)), cfg.isBlocking)
      && o == Returned(s.hasErrors)
  {
    ReportsInOrder(s, name, result, cfg);
  }

  /** Blocking reports for a name already listed when the call began are
      logged and change nothing else, whether or not the logger throws. */
  lemma ListedNameOnlyLogs(s: Snapshot, name: string, result: CheckResult, cfg: Config)
    requires !result.Null? && name in s.failed
    ensures
      var (s', o) := Observe(s, name, result, cfg);
      && s'.failed == s.failed && s'.hasErrors == s.hasErrors && s'.pending == s.pending
      && |s.log| <= |s'.log|
      && s'.log[..|s.log|] == s.log
  {
    var rs := Present(Items(result));
    if cfg.throwOnBlocking && BlockingCount(rs, cfg.isBlocking) > 0 {
      ProcessStopsAtFirstBlocking(s, IndexOf(s.failed, name), name, cfg, Items(result));
    } else {
      ReportsInOrder(s, name, result, cfg);
    }
  }

  /** For a name absent when the call began, k blocking reports in one batch
      record the name k times and queue k Tracks, and raise the flag when k
      is positive. */
  lemma AbsentNameTrackedPerReport(s: Snapshot, name: string, result: CheckResult, cfg: Config)
    requires !result.Null? && name !in s.failed && !cfg.throwOnBlocking
    ensures
      var k := BlockingCount(Present(Items(result)), cfg.isBlocking);
      var (s', o) := Observe(s, name, result, cfg);
      && s'.failed == s.failed + Repeat(name, k)
      && s'.pending == s.pending + Repeat(Track(cfg.token), k)
      && s'.hasErrors == (s.hasErrors || k > 0)
      && o == Returned(s'.hasErrors)
  {
    ReportsInOrder(s, name, result, cfg);
  }

  /** With a throwing logger, a batch holding a blocking report is logged up
      to that report, the call throws with it, and nothing else changes. */
  lemma ThrowStopsTheBatch(s: Snapshot, name: string, result: CheckResult, cfg: Config)
    requires cfg.throwOnBlocking && BlockingCount(Present(Items(result)), cfg.isBlocking) > 0
    ensures
      var pre := UpToFirstBlocking(Present(Items(result)), cfg.isBlocking);
      Observe(s, name, result, cfg)
        == (s.(log := s.log + Entries(pre, cfg.isBlocking)), Threw(pre[|pre| - 1]))
  {
    ProcessStopsAtFirstBlocking(s, IndexOf(s.failed, name), name, cfg, Items(result));
  }

  /** Every call keeps the instance consistent; in particular every queued
      notification carries the instance's one token. */
  lemma ObserveKeepsConsistent(s: Snapshot, name: string, result: CheckResult, cfg: Config)
    requires Consistent(s, cfg.token)
    ensures Consistent(Observe(s, name, result, cfg).0, cfg.token)
  {
    if result.Null? {
      if name in s.failed && s.hasErrors {
        NullRetracts(s, name, cfg);
      } else {
        NullOtherwiseChangesNothing(s, name, cfg);
      }
    } else if cfg.throwOnBlocking && BlockingCount(Present(Items(result)), cfg.isBlocking) > 0 {
      ThrowStopsTheBatch(s, name, result, cfg);
    } else {
      ReportsInOrder(s, name, result, cfg);
    }
  }

  // ---------------------------------------------------------------------
  // Sequences of calls

  /** A single blocking report for a name not yet listed. */
  lemma FirstFailure(s: Snapshot, name: string, r: Report, cfg: Config)
    requires name !in s.failed && !cfg.throwOnBlocking && cfg.isBlocking(r.rule)
    ensures Observe(s, name, One(r), cfg)
         == (Snapshot(s.failed + [name], true, s.pending + [Track(cfg.token)], s.log + [LogEntry(r, true)]),
             Returned(true))
  {
    EntriesCons(r, [], cfg.isBlocking);
    assert [r] + [] == [r];
    assert Entries([r], cfg.isBlocking) == [LogEntry(r, cfg.isBlocking(r.rule))];
    assert BlockingCount([r], cfg.isBlocking) == if cfg.isBlocking(r.rule) then 1 else 0;
    ReportsInOrder(s, name, One(r), cfg);
    assert Repeat(name, 1) == [name] && Repeat(Track(cfg.token), 1) == [Track(cfg.token)];
  }

  /** A single report for a name already listed is only logged. */
  lemma RepeatedReport(s: Snapshot, name: string, r: Report, cfg: Config)
    requires name in s.failed && !cfg.throwOnBlocking
    ensures Observe(s, name, One(r), cfg)
         == (s.(log := s.log + [LogEntry(r, cfg.isBlocking(r.rule))]), Returned(s.hasErrors))
  {
    EntriesCons(r, [], cfg.isBlocking);
    assert [r] + [] == [r];
    assert Entries([r], cfg.isBlocking) == [LogEntry(r, cfg.isBlocking(r.rule))];
    assert BlockingCount([r], cfg.isBlocking) == if cfg.isBlocking(r.rule) then 1 else 0;
    ReportsInOrder(s, name, One(r), cfg);
    assert Repeat(name, 0) == [] && Repeat(Track(cfg.token), 0) == [];
    assert s.failed + [] == s.failed && s.pending + [] == s.pending;
  }

  /** A check that keeps failing is logged every time but tracked once. */
  lemma RepeatedFailureTrackedOnce(s: Snapshot, name: string, r: Report, cfg: Config)
    requires name !in s.failed && !cfg.throwOnBlocking && cfg.isBlocking(r.rule)
    ensures
      var s1 := Observe(s, name, One(r), cfg).0;
      var (s2, o2) := Observe(s1, name, One(r), cfg);
      && s2.failed == s.failed + [name] && s2.hasErrors && o2 == Returned(true)
      && s1.pending == s2.pending == s.pending + [Track(cfg.token)]
      && s2.log == s.log + [LogEntry(r, true), LogEntry(r, true)]
  {
    FirstFailure(s, name, r, cfg);
    var s1 := Observe(s, name, One(r), cfg).0;
    RepeatedReport(s1, name, r, cfg);
  }

  /** A check that fails twice and then passes twice: one Track, one Remove,
      both reports logged, and the second pass is a no-op. */
  lemma FailTwiceThenRecover(s: Snapshot, name: string, r: Report, cfg: Config)
    requires name !in s.failed && !cfg.throwOnBlocking && cfg.isBlocking(r.rule)
    ensures
      var s1 := Observe(s, name, One(r), cfg).0;
      var s2 := Observe(s1, name, One(r), cfg).0;
      var (s3, o3) := Observe(s2, name, Null, cfg);
      && s3.pending == s.pending + [Track(cfg.token), Remove(cfg.token)]
      && s3.failed == s.failed && !s3.hasErrors && o3 == Returned(false)
      && s3.log == s.log + [LogEntry(r, true), LogEntry(r, true)]
      && Observe(s3, name, Null, cfg) == (s3, Returned(false))
  {
    RepeatedFailureTrackedOnce(s, name, r, cfg);
    var s1 := Observe(s, name, One(r), cfg).0;
    var s2 := Observe(s1, name, One(r), cfg).0;
    RetractLast(s2, s.failed, name, cfg);
    var s3 := Observe(s2, name, Null, cfg).0;
    assert s3.pending == s.pending + [Track(cfg.token), Remove(cfg.token)];
    NullOtherwiseChangesNothing(s3, name, cfg);
  }

  /** A pass of the name listed last, and only there, restores the list
      before it. */
  lemma RetractLast(s: Snapshot, before: seq<string>, name: string, cfg: Config)
    requires name !in before && s.failed == before + [name] && s.hasErrors
    ensures Observe(s, name, Null, cfg)
         == (s.(failed := before, hasErrors := false, pending := s.pending + [Remove(cfg.token)]),
             Returned(false))
  {
    assert s.failed[..|before|] == before;
    assert IndexOf(s.failed, name) == |before|;
    assert Items(Null)[1..] == [];
  }

  /** The flag is shared by all names: after a and b fail and b passes, a is
      still listed but the flag is down, so the call returns the empty style,
      a later pass of a sends no Remove, and a later failure of a sends no
      Track. */
  lemma SharedFlagHidesOtherFailure(a: string, b: string, r: Report, cfg: Config)
    requires a != b && !cfg.throwOnBlocking && cfg.isBlocking(r.rule)
    ensures
      var s1 := Observe(Initial, a, One(r), cfg).0;
      var s2 := Observe(s1, b, One(r), cfg).0;
      var (s3, o3) := Observe(s2, b, Null, cfg);
      var (s4, o4) := Observe(s3, a, One(r), cfg);
      && s3.failed == [a] && !s3.hasErrors && o3 == Returned(false)
      && s3.pending == [Track(cfg.token), Track(cfg.token), Remove(cfg.token)]
      && Observe(s3, a, Null, cfg) == (s3, Returned(false))
      && s4.pending == s3.pending && s4.failed == [a] && o4 == Returned(false)
  {
    AbsentNameTrackedPerReport(Initial, a, One(r), cfg);
    var s1 := Observe(Initial, a, One(r), cfg).0;
    AbsentNameTrackedPerReport(s1, b, One(r), cfg);
    var s2 := Observe(s1, b, One(r), cfg).0;
    assert s2.failed == [a, b];
    assert IndexOf(s2.failed, b) == 1;
    NullRetracts(s2, b, cfg);
    var s3 := Observe(s2, b, Null, cfg).0;
    NullOtherwiseChangesNothing(s3, a, cfg);
    ReportsInOrder(s3, a, One(r), cfg);
  }

  /** A pass cuts away every name listed after the passing one: after a and
      b fail and a passes, b is no longer listed, and b's next failure is
      tracked again. */
  lemma PassDropsLaterNames(a: string, b: string, r: Report, cfg: Config)
    requires a != b && !cfg.throwOnBlocking && cfg.isBlocking(r.rule)
    ensures
      var s1 := Observe(Initial, a, One(r), cfg).0;
      var s2 := Observe(s1, b, One(r), cfg).0;
      var s3 := Observe(s2, a, Null, cfg).0;
      var (s4, o4) := Observe(s3, b, One(r), cfg);
      && s3.failed == [] && !s3.hasErrors
      && s4.failed == [b] && o4 == Returned(true)
      && s4.pending == s3.pending + [Track(cfg.token)]
  {
    AbsentNameTrackedPerReport(Initial, a, One(r), cfg);
    var s1 := Observe(Initial, a, One(r), cfg).0;
    AbsentNameTrackedPerReport(s1, b, One(r), cfg);
    var s2 := Observe(s1, b, One(r), cfg).0;
    assert s2.failed == [a, b];
    NullRetracts(s2, a, cfg);
    var s3 := Observe(s2, a, Null, cfg).0;
    AbsentNameTrackedPerReport(s3, b, One(r), cfg);
  }
}
