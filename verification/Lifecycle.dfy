/** What the two process implementations have in common: the published process
    information, what an executor reports, and the history of a run.

    A history is one sequence of events in the order in which they took effect.
    It records the calls made on the executor, the registrations that clients
    made, the triggers that ran, the moment at which `Complete` became visible,
    and what clients were told.  Every ordering claim about a process is a claim
    about its history.
 */
module Lifecycle {
  import opened Wrappers

  datatype Error = WaitError(code: int) | ContextError

  /** The mutable part of `ProcessInfo`; `tagList` and `closers` are those of
      its `Options`. */
  datatype Info = Info(
    complete: bool,
    isRunning: bool,
    successful: bool,
    timeout: bool,
    exitCode: int,
    endAt: int,
    tagList: seq<string>,
    closers: seq<nat>)

  /** The information a process starts with. */
  function Started(tags: seq<string>, closers: seq<nat>): Info {
    Info(false, true, false, false, 0, 0, tags, closers)
  }

  /** What an executor reports once its `Wait` has returned. */
  datatype ExitReport = ExitReport(err: Option<Error>, success: bool, signal: Option<int>, exitCode: int)

  datatype Config = Config(windows: bool, deadline: Option<int>)

  const SIGABRT := 6
  const SIGKILL := 9
  const SIGTERM := 15

  function MakeCompatible(windows: bool, sig: int): int {
    if windows && (sig == SIGTERM || sig == SIGABRT) then SIGKILL else sig
  }

  /** Windows knows neither termination nor abort, so both become a kill. */
  lemma CompatibleMeans(windows: bool, sig: int)
    ensures !windows || (sig != 15 && sig != 6) ==> MakeCompatible(windows, sig) == sig
    ensures windows && (sig == 15 || sig == 6) ==> MakeCompatible(windows, sig) == 9
  {
  }

  function ReportedExitCode(r: ExitReport): int {
    if r.signal.Some? then r.signal.value else r.exitCode
  }

  function ReportedTimeout(cfg: Config, r: ExitReport, now: int, previous: bool): bool {
    if cfg.deadline.None? then previous
    else if r.signal.Some? then r.signal.value == SIGKILL && now > cfg.deadline.value
    else if cfg.windows then r.exitCode == 1 && now > cfg.deadline.value
    else previous
  }

  /** In terms of the report alone: death by signal is reported as the signal's
      number, and only a process with a deadline can have timed out. */
  lemma ReportedMeans(cfg: Config, r: ExitReport, now: int)
    ensures r.signal.Some? ==> ReportedExitCode(r) == r.signal.value
    ensures r.signal.None? ==> ReportedExitCode(r) == r.exitCode
    ensures ReportedTimeout(cfg, r, now, false) <==>
              && cfg.deadline.Some? && now > cfg.deadline.value
              && if r.signal.Some? then r.signal.value == 9 else cfg.windows && r.exitCode == 1
  {
  }

  /** The information a process holds once the executor's report is in. */
  function Finished(info: Info, cfg: Config, r: ExitReport, now: int): Info {
    info.(complete := true, isRunning := false, successful := r.success,
          timeout := ReportedTimeout(cfg, r, now, info.timeout),
          exitCode := ReportedExitCode(r), endAt := now)
  }

  /** The part of the information that completion freezes: all but the tags. */
  function Outcome(info: Info): Info {
    info.(tagList := [])
  }

  /** `OptionsClose` is the trigger that the constructors register themselves. */
  datatype Trigger = OptionsClose | User(id: nat)

  datatype Event =
      // calls on the executor
    | WaitCall
    | WaitReturn
    | SuccessCall
    | SignalInfoCall
    | ExitCodeCall
    | PidCall(client: nat, positive: bool)               // and the answer
    | SignalCall(client: nat, sig: int, failed: bool)    // and the answer
    | CloseCall
      // registrations and triggers
    | Accepted(trigger: Trigger)
    | Refused(trigger: Trigger)
    | Ran(trigger: Trigger)
    | CloserRan(closer: nat)
    | SignalTriggerAccepted(hook: nat)
    | OperationStarted(client: nat)
    | SignalTriggerRan(client: nat, hook: nat, skip: bool)
      // tags
    | Tagged(tag: string)
    | TagsReset
      // what clients can see
    | Published
    | Observed(complete: bool)
    | WaitDone(client: nat, code: int, err: Option<Error>)

  type Log = seq<Event>

  function AcceptedOf(e: Event): Option<Trigger> {
    if e.Accepted? then Some(e.trigger) else None
  }

  function RanOf(e: Event): Option<Trigger> {
    if e.Ran? then Some(e.trigger) else None
  }

  function CloserOf(e: Event): Option<nat> {
    if e.CloserRan? then Some(e.closer) else None
  }

  function HookOf(e: Event): Option<nat> {
    if e.SignalTriggerAccepted? then Some(e.hook) else None
  }

  /** The values that `pick` finds in a history, in order. */
  function Collect<T>(log: Log, pick: Event -> Option<T>): seq<T> {
    if log == [] then []
    else
      var last := pick(log[|log| - 1]);
      Collect(log[..|log| - 1], pick) + (if last.Some? then [last.value] else [])
  }

  lemma {:induction false} CollectConcat<T>(a: Log, b: Log, pick: Event -> Option<T>)
    ensures Collect(a + b, pick) == Collect(a, pick) + Collect(b, pick)
  {
    if b == [] {
      assert a + b == a;
    } else {
      var n := |b| - 1;
      assert (a + b)[..|a + b| - 1] == a + b[..n];
      CollectConcat(a, b[..n], pick);
    }
  }

  lemma CollectSplit<T>(log: Log, k: nat, pick: Event -> Option<T>)
    requires k <= |log|
    ensures Collect(log, pick) == Collect(log[..k], pick) + Collect(log[k..], pick)
  {
    CollectConcat(log[..k], log[k..], pick);
    assert log == log[..k] + log[k..];
  }

  lemma {:induction false} CollectNothing<T>(log: Log, pick: Event -> Option<T>)
    requires forall e :: e in log ==> pick(e).None?
    ensures Collect(log, pick) == []
  {
    if log != [] {
      CollectNothing(log[..|log| - 1], pick);
    }
  }

  lemma {:induction false} CollectFrom<T>(log: Log, pick: Event -> Option<T>, x: T) returns (j: nat)
    requires x in Collect(log, pick)
    ensures j < |log| && pick(log[j]) == Some(x)
  {
    var n := |log| - 1;
    if x in Collect(log[..n], pick) {
      j := CollectFrom(log[..n], pick, x);
    } else {
      j := n;
    }
  }

  lemma {:induction false} CollectHas<T>(log: Log, pick: Event -> Option<T>, j: nat)
    requires j < |log| && pick(log[j]).Some?
    ensures pick(log[j]).value in Collect(log, pick)
  {
    var n := |log| - 1;
    if j < n {
      CollectHas(log[..n], pick, j);
    }
  }

  /** `Create.Close`: every closer is called, in order. */
  function ClosersRan(closers: seq<nat>): Log {
    seq(|closers|, i requires 0 <= i < |closers| => CloserRan(closers[i]))
  }

  lemma {:induction false} CollectClosersRan(closers: seq<nat>)
    ensures Collect(ClosersRan(closers), CloserOf) == closers
  {
    if closers != [] {
      var n := |closers| - 1;
      CollectClosersRan(closers[..n]);
      assert ClosersRan(closers)[..n] == ClosersRan(closers[..n]);
      assert closers == closers[..n] + [closers[n]];
    }
  }

  /** What running one trigger does: the constructors' trigger closes the options
      of the process, other triggers do not. */
  function RanOne(t: Trigger, closers: seq<nat>): Log {
    [Ran(t)] + if t.OptionsClose? then ClosersRan(closers) else []
  }

  /** The events of running a trigger sequence on information with these closers. */
  function RanAll(ts: seq<Trigger>, closers: seq<nat>): Log {
    if ts == [] then [] else RanAll(ts[..|ts| - 1], closers) + RanOne(ts[|ts| - 1], closers)
  }

  /** The closers that running these triggers calls. */
  function ClosersCalled(ts: seq<Trigger>, closers: seq<nat>): seq<nat> {
    if ts == [] then []
    else ClosersCalled(ts[..|ts| - 1], closers) + if ts[|ts| - 1].OptionsClose? then closers else []
  }

  lemma {:induction false} ClosersCalledConcat(a: seq<Trigger>, b: seq<Trigger>, closers: seq<nat>)
    ensures ClosersCalled(a + b, closers) == ClosersCalled(a, closers) + ClosersCalled(b, closers)
  {
    if b == [] {
      assert a + b == a;
    } else {
      var n := |b| - 1;
      assert (a + b)[..|a + b| - 1] == a + b[..n];
      ClosersCalledConcat(a, b[..n], closers);
    }
  }

  lemma CollectRanOne(t: Trigger, closers: seq<nat>)
    ensures Collect(RanOne(t, closers), RanOf) == [t]
    ensures Collect(RanOne(t, closers), CloserOf) == if t.OptionsClose? then closers else []
  {
    var rest := if t.OptionsClose? then ClosersRan(closers) else [];
    CollectConcat([Ran(t)], rest, RanOf);
    CollectConcat([Ran(t)], rest, CloserOf);
    CollectNothing(rest, RanOf);
    CollectClosersRan(closers);
    assert Collect([Ran(t)], RanOf) == [t] && Collect([Ran(t)], CloserOf) == [];
  }

  lemma {:induction false} CollectRanAll(ts: seq<Trigger>, closers: seq<nat>)
    ensures Collect(RanAll(ts, closers), RanOf) == ts
    ensures Collect(RanAll(ts, closers), CloserOf) == ClosersCalled(ts, closers)
  {
    if ts != [] {
      var n := |ts| - 1;
      CollectRanAll(ts[..n], closers);
      CollectRanOne(ts[n], closers);
      CollectConcat(RanAll(ts[..n], closers), RanOne(ts[n], closers), RanOf);
      CollectConcat(RanAll(ts[..n], closers), RanOne(ts[n], closers), CloserOf);
      assert ts == ts[..n] + [ts[n]];
    }
  }

  /** Running triggers only runs triggers and closers. */
  lemma {:induction false} RanAllIs(ts: seq<Trigger>, closers: seq<nat>, e: Event)
    ensures e in RanAll(ts, closers) ==> e.Ran? || e.CloserRan?
  {
    if ts != [] {
      RanAllIs(ts[..|ts| - 1], closers, e);
    }
  }

  lemma RanAllLast(ts: seq<Trigger>, t: Trigger, closers: seq<nat>)
    ensures RanAll(ts + [t], closers) == RanAll(ts, closers) + RanOne(t, closers)
  {
    hide RanOne;
    assert (ts + [t])[..|ts|] == ts;
  }

  lemma Assoc(a: Log, b: Log, c: Log)
    ensures a + b + c == a + (b + c)
  {
  }

  lemma {:induction false} RanAllConcat(a: seq<Trigger>, b: seq<Trigger>, closers: seq<nat>)
    ensures RanAll(a + b, closers) == RanAll(a, closers) + RanAll(b, closers)
  {
    if b == [] {
      assert a + b == a;
    } else {
      hide RanAll, RanOne;
      var n := |b| - 1;
      RanAllConcat(a, b[..n], closers);
      RanAllLast(b[..n], b[n], closers);
      RanAllLast(a + b[..n], b[n], closers);
      Assoc(RanAll(a, closers), RanAll(b[..n], closers), RanOne(b[n], closers));
      assert b == b[..n] + [b[n]] && a + b == a + b[..n] + [b[n]];
    }
  }

  /** A trigger list with the closing trigger first and nowhere else calls every
      closer exactly once. */
  lemma {:induction false} CalledOnce(ts: seq<Trigger>, closers: seq<nat>)
    requires |ts| > 0 && ts[0] == OptionsClose && forall i :: 1 <= i < |ts| ==> ts[i].User?
    ensures ClosersCalled(ts, closers) == closers
  {
    if |ts| == 1 {
      assert ClosersCalled(ts[..0], closers) == [];
    } else {
      CalledOnce(ts[..|ts| - 1], closers);
    }
  }

  /** `Tag` adds a tag that is not there yet, and `ResetTags` drops all. */
  function ReplayOne(before: seq<string>, e: Event): seq<string> {
    match e
    case Tagged(x) => if x in before then before else before + [x]
    case TagsReset => []
    case _ => before
  }

  /** The tag list after replaying a history on an initial list. */
  function ReplayTags(initial: seq<string>, log: Log): seq<string> {
    if log == [] then initial
    else ReplayOne(ReplayTags(initial, log[..|log| - 1]), log[|log| - 1])
  }

  lemma ReplaySnoc(initial: seq<string>, log: Log, e: Event)
    ensures ReplayTags(initial, log + [e]) == ReplayOne(ReplayTags(initial, log), e)
  {
    assert (log + [e])[..|log + [e]| - 1] == log;
  }

  /** A tag was added and not dropped since. */
  ghost predicate TaggedSinceReset(log: Log, x: string) {
    exists j :: 0 <= j < |log| && log[j] == Tagged(x) && TagsReset !in log[j..]
  }

  /** What the tags are after a history: those that were added and, unless they were
      reset, the initial ones, each once. */
  lemma {:induction false} TagsMean(initial: seq<string>, log: Log)
    ensures forall x :: x in ReplayTags(initial, log) <==>
              TaggedSinceReset(log, x) || (x in initial && TagsReset !in log)
    ensures (forall i, j :: 0 <= i < j < |initial| ==> initial[i] != initial[j]) ==>
              forall i, j :: 0 <= i < j < |ReplayTags(initial, log)| ==>
                ReplayTags(initial, log)[i] != ReplayTags(initial, log)[j]
  {
    if log != [] {
      var n := |log| - 1;
      TagsMean(initial, log[..n]);
      forall x {
        SinceReset(log, x);
      }
      assert log == log[..n] + [log[n]];
      hide TaggedSinceReset;
    }
  }

  lemma SinceReset(log: Log, x: string)
    requires log != []
    ensures var n := |log| - 1;
            TaggedSinceReset(log, x) <==> log[n] == Tagged(x) || (log[n] != TagsReset && TaggedSinceReset(log[..n], x))
  {
    var n := |log| - 1;
    if log[n] == Tagged(x) {
      assert log[n..] == [log[n]];
    }
    if j :| 0 <= j < n && log[j] == Tagged(x) && TagsReset !in log[..n][j..] {
      assert log[j..] == log[..n][j..] + [log[n]];
      assert log[..n][j] == Tagged(x);
    }
    if j :| 0 <= j < |log| && log[j] == Tagged(x) && TagsReset !in log[j..] {
      if j < n {
        assert log[j..] == log[..n][j..] + [log[n]];
        assert log[n] in log[j..];
        assert log[..n][j] == Tagged(x);
      }
    }
  }

  predicate AboutTags(e: Event) {
    e.Tagged? || e.TagsReset?
  }

  lemma {:induction false} ReplayIgnores(initial: seq<string>, a: Log, b: Log)
    requires forall e :: e in b ==> !AboutTags(e)
    ensures ReplayTags(initial, a + b) == ReplayTags(initial, a)
  {
    if b == [] {
      assert a + b == a;
    } else {
      var n := |b| - 1;
      assert (a + b)[..|a + b| - 1] == a + b[..n];
      assert (a + b)[|a + b| - 1] == b[n];
      assert !AboutTags(b[n]);
      ReplayIgnores(initial, a, b[..n]);
    }
  }

  /** Calls whose answer is only defined once the executor's `Wait` returned. */
  predicate NeedsWait(e: Event) {
    e.SuccessCall? || e.SignalInfoCall? || e.ExitCodeCall?
  }

  predicate IsExecutorCall(e: Event) {
    NeedsWait(e) || e.WaitCall? || e.WaitReturn? || e.PidCall? || e.SignalCall? || e.CloseCall?
  }

  /** The calling contract of `executor.Executor`: results are asked for after
      `Wait` returned and before `Close`, and after `Close` nothing but a late
      `Wait` is called. */
  ghost predicate RespectsExecutor(log: Log) {
    forall j :: 0 <= j < |log| ==>
      && (NeedsWait(log[j]) ==> WaitReturn in log[..j] && CloseCall !in log[..j])
      && (IsExecutorCall(log[j]) && CloseCall in log[..j] ==> log[j].WaitCall? || log[j].WaitReturn?)
  }

  // ----- signals

  /** Signal triggers of one `Signal` call that ran, with their answers. */
  function HooksRan(client: nat, hooks: seq<nat>, verdicts: seq<bool>): Log
    requires |verdicts| == |hooks|
  {
    seq(|hooks|, i requires 0 <= i < |hooks| => SignalTriggerRan(client, hooks[i], verdicts[i]))
  }

  /** The signal triggers of one `Signal` call, each having run without asking
      to skip the signal. */
  function NoneSkipped(client: nat, hooks: seq<nat>): Log {
    seq(|hooks|, i requires 0 <= i < |hooks| => SignalTriggerRan(client, hooks[i], false))
  }

  /** The events of one client's operation; other clients' events may lie
      between them. */
  function ServiceOf(client: nat): Event -> Option<Event> {
    (e: Event) =>
      if e == OperationStarted(client)
         || (e.SignalTriggerRan? && e.client == client)
         || (e.SignalCall? && e.client == client)
      then Some(e) else None
  }

  function Service(log: Log, client: nat): Log {
    Collect(log, ServiceOf(client))
  }

  /** The signal triggers that were registered when the client's operation
      started. */
  function HooksRead(log: Log, client: nat): Option<seq<nat>> {
    if log == [] then None
    else
      var n := |log| - 1;
      var before := HooksRead(log[..n], client);
      if before.Some? then before
      else if log[n] == OperationStarted(client) then Some(Collect(log[..n], HookOf)) else None
  }

  /** A `Signal` operation that has run some of the signal triggers it read. */
  function Begun(client: nat, hooks: seq<nat>, verdicts: seq<bool>): Log
    requires |verdicts| <= |hooks|
  {
    [OperationStarted(client)] + HooksRan(client, hooks[..|verdicts|], verdicts)
  }

  /** A `Signal` operation that has run all of them, and then sent the signal
      unless one of them asked to skip it. */
  function Served(client: nat, hooks: seq<nat>, verdicts: seq<bool>, sig: int, answer: Option<bool>): Log
    requires |verdicts| == |hooks|
  {
    Begun(client, hooks, verdicts) + if answer.None? then [] else [SignalCall(client, sig, answer.value)]
  }

  /** The operation is over; `answer` says whether sending the signal failed, if no
      trigger asked to skip it. */
  ghost predicate IsServed(log: Log, client: nat, sig: int, answer: Option<bool>) {
    HooksRead(log, client).Some? &&
    var hooks := HooksRead(log, client).value;
    exists verdicts ::
      && |verdicts| == |hooks| && Service(log, client) == Served(client, hooks, verdicts, sig, answer)
      && (answer.None? <==> true in verdicts)
  }

  /** For this client the executor took a signal, or a signal trigger asked to skip
      it. */
  ghost predicate SentOrSkipped(log: Log, client: nat) {
    || (exists sig :: SignalCall(client, sig, false) in log)
    || (exists hook :: SignalTriggerRan(client, hook, true) in log)
  }

  /** Of this client's operation the history holds just this: it started, and
      since then every signal trigger registered by that time ran, in order, with
      none asking to skip. */
  predicate SignalJustified(log: Log, client: nat) {
    HooksRead(log, client).Some?
    && Service(log, client) == [OperationStarted(client)] + NoneSkipped(client, HooksRead(log, client).value)
  }

  /** A signal reaches the executor only before completion, and only when it is
      justified. */
  ghost predicate SignalsJustified(log: Log) {
    forall j :: 0 <= j < |log| && log[j].SignalCall? ==>
      Published !in log[..j] && SignalJustified(log[..j], log[j].client)
  }

  lemma NotSkippedMeansNoneSkipped(client: nat, hooks: seq<nat>, verdicts: seq<bool>)
    requires |verdicts| == |hooks|
    ensures true !in verdicts ==> HooksRan(client, hooks, verdicts) == NoneSkipped(client, hooks)
  {
    if true !in verdicts {
      forall i | 0 <= i < |hooks|
        ensures HooksRan(client, hooks, verdicts)[i] == NoneSkipped(client, hooks)[i]
      {
        assert verdicts[i] in verdicts;
      }
    }
  }

  /** Where the signal triggers were read: at the first start of the operation. */
  lemma {:induction false} HooksReadAt(log: Log, client: nat, k: nat)
    requires k < |log| && log[k] == OperationStarted(client) && OperationStarted(client) !in log[..k]
    ensures HooksRead(log, client) == Some(Collect(log[..k], HookOf))
  {
    var n := |log| - 1;
    if k < n {
      assert log[..n][..k] == log[..k];
      HooksReadAt(log[..n], client, k);
    } else {
      NeverStarted(log[..n], client);
    }
  }

  lemma {:induction false} NeverStarted(log: Log, client: nat)
    requires OperationStarted(client) !in log
    ensures HooksRead(log, client).None?
  {
    if log != [] {
      NeverStarted(log[..|log| - 1], client);
    }
  }

  lemma {:induction false} ReadIsStarted(log: Log, client: nat) returns (k: nat)
    requires HooksRead(log, client).Some?
    ensures k < |log| && log[k] == OperationStarted(client) && OperationStarted(client) !in log[..k]
    ensures HooksRead(log, client) == Some(Collect(log[..k], HookOf))
  {
    var n := |log| - 1;
    if HooksRead(log[..n], client).Some? {
      k := ReadIsStarted(log[..n], client);
      assert log[..n][..k] == log[..k];
    } else {
      k := n;
      if OperationStarted(client) in log[..n] {
        var i := FirstStart(log[..n], client);
        HooksReadAt(log[..n], client, i);
      }
    }
  }

  lemma {:induction false} FirstStart(log: Log, client: nat) returns (k: nat)
    requires OperationStarted(client) in log
    ensures k < |log| && log[k] == OperationStarted(client) && OperationStarted(client) !in log[..k]
  {
    var n := |log| - 1;
    if OperationStarted(client) in log[..n] {
      k := FirstStart(log[..n], client);
      assert log[..n][..k] == log[..k];
    } else {
      k := n;
      assert log == log[..n] + [log[n]];
    }
  }

  /** What was read stays read. */
  lemma {:induction false} HooksReadKept(log: Log, evs: Log, client: nat)
    ensures HooksRead(log, client).Some? ==> HooksRead(log + evs, client) == HooksRead(log, client)
    ensures OperationStarted(client) !in evs ==> HooksRead(log + evs, client) == HooksRead(log, client)
  {
    if evs == [] {
      assert log + evs == log;
    } else {
      var n := |evs| - 1;
      assert (log + evs)[..|log + evs| - 1] == log + evs[..n];
      assert evs == evs[..n] + [evs[n]];
      HooksReadKept(log, evs[..n], client);
    }
  }

  /** `p` holds of every event and the history before it. */
  ghost predicate Always(log: Log, p: (Log, Event) -> bool) {
    forall j :: 0 <= j < |log| ==> p(log[..j], log[j])
  }

  lemma AlwaysConcat(log: Log, evs: Log, p: (Log, Event) -> bool)
    requires Always(log, p)
    requires forall i :: 0 <= i < |evs| ==> p(log + evs[..i], evs[i])
    ensures Always(log + evs, p)
  {
    forall j | 0 <= j < |log + evs| ensures p((log + evs)[..j], (log + evs)[j]) {
      if j < |log| {
        assert (log + evs)[..j] == log[..j];
      } else {
        assert (log + evs)[..j] == log + evs[..j - |log|];
      }
    }
  }

  /** When an event may enter a history. */
  ghost predicate Admissible(before: Log, e: Event) {
    && (NeedsWait(e) ==> WaitReturn in before)
    && (IsExecutorCall(e) && CloseCall in before ==> e.WaitCall? || e.WaitReturn?)
    && (e.SignalCall? ==> Published !in before && SignalJustified(before, e.client))
    && (e.Accepted? || e.SignalTriggerAccepted? || e.Ran? || e.CloserRan? || e.Published? ==> Published !in before)
    && (e.Refused? || e.WaitDone? || e == Observed(true) ==> Published in before)
    && (e == Observed(false) ==> Published !in before)
  }

  /** What admissible events add up to. */
  lemma AdmissibleMeans(log: Log)
    requires Always(log, Admissible)
    ensures RespectsExecutor(log) && SignalsJustified(log)
  {
    forall j | 0 <= j < |log|
      ensures && (NeedsWait(log[j]) ==> WaitReturn in log[..j] && CloseCall !in log[..j])
              && (IsExecutorCall(log[j]) && CloseCall in log[..j] ==> log[j].WaitCall? || log[j].WaitReturn?)
              && (log[j].SignalCall? ==> Published !in log[..j] && SignalJustified(log[..j], log[j].client))
    {
      assert Admissible(log[..j], log[j]);
    }
  }
}
