/** Invariants of the basic process over every interleaving, and what they mean
    for its clients. */
module BasicProofs {
  import opened Wrappers
  import opened Lifecycle
  import opened Signals
  import opened Basic

  predicate Running(pc: Pc) {
    pc.AwaitExit? || pc.Received?
  }

  predicate Control(s: State) {
    && (Running(s.pc) ==>
          && s.info.isRunning && !s.info.complete && !s.info.timeout
          && s.err.None? && !s.info.successful && s.info.exitCode == 0)
    && (!Running(s.pc) ==> !s.info.isRunning && s.info.complete)
    && (s.waitersReleased <==> s.pc.WaitersReleased? || s.pc.Unlocked? || s.pc.ExecutorClosed?)
    && (s.report.Some? <==> s.exit.Returned? || s.exit.Delivered?)
    && (s.pc.AwaitExit? <==> !s.exit.Delivered?)
    && (s.exit.Returned? ==> s.report.Some? && s.exit.err == s.report.value.err)
    && (s.pc.Received? ==> s.report.Some? && s.pc.err == s.report.value.err)
    && (!Running(s.pc) ==> OutcomeFits(s))
    && s.info.closers == s.closers
  }

  /** The outcome is what the executor reported. */
  predicate OutcomeFits(s: State) {
    && s.report.Some?
    && var r := s.report.value;
    && s.err == r.err
    && s.info.successful == r.success
    && s.info.exitCode == ReportedExitCode(r)
    && s.info.timeout == ReportedTimeout(s.cfg, r, s.info.endAt, false)
  }

  predicate Facts(s: State) {
    && (WaitReturn in s.log <==> s.report.Some?)
    && (CloseCall in s.log <==> s.pc.ExecutorClosed?)
    && (Published in s.log <==> s.waitersReleased)
  }

  predicate WaitOk(s: State, w: WaitPc) {
    && (w.ReadingBoth? || w.ReadingCode? ==> s.waitersReleased)
    && (w.ReadingErr? ==> s.waitersReleased && w.code == s.info.exitCode)
    && (w.Done? ==> s.waitersReleased && w == Done(s.info.exitCode, s.err))
  }

  ghost predicate WaitsOk(s: State) {
    forall c :: c in s.waits ==> WaitOk(s, s.waits[c])
  }

  predicate TriggersOk(s: State) {
    && Collect(s.log, AcceptedOf) == s.triggers
    && Collect(s.log, HookOf) == s.signalTriggers
    && (s.pc.Finishing? ==> s.pc.done <= |s.triggers|)
    && Collect(s.log, RanOf) == RanSoFar(s)
    && Collect(s.log, CloserOf) == ClosersCalled(RanSoFar(s), s.closers)
  }

  /** A `Signal` call that holds the read lock keeps the process from finishing
      and the signal triggers as it read them. */
  predicate CallerOk(s: State, pc: SignalPc) {
    && (Reading(pc) ==> Running(s.pc))
    && (pc.Hooking? ==> pc.hooks == s.signalTriggers && |pc.verdicts| <= |pc.hooks|)
    && (pc.TurnedAway? ==> s.waitersReleased)
    && (pc.Answered? ==> (pc.ok <==> pc.answer != Some(true)))
  }

  ghost predicate CallersOk(s: State) {
    forall c :: c in s.calls ==> CallerOk(s, s.calls[c])
  }

  function StageOf(s: State, c: nat): Stage {
    if c !in s.calls then Idle
    else match s.calls[c]
      case Hooking(_, hooks, verdicts) => Underway(hooks, verdicts)
      case Leaving(sig, answer) => Over(MakeCompatible(s.cfg.windows, sig), answer)
      case Answered(sig, answer, _) => Over(MakeCompatible(s.cfg.windows, sig), answer)
      case _ => Idle
  }

  ghost predicate CallsOk(s: State) {
    forall c :: InStage(s.log, c, StageOf(s, c))
  }

  function RanSoFar(s: State): seq<Trigger>
    requires s.pc.Finishing? ==> s.pc.done <= |s.triggers|
  {
    if Running(s.pc) then [] else if s.pc.Finishing? then s.triggers[..s.pc.done] else s.triggers
  }

  predicate CloseTriggerOk(s: State) {
    && |s.triggers| > 0 && s.triggers[0] == OptionsClose
    && (forall i :: 1 <= i < |s.triggers| ==> s.triggers[i].User?)
  }

  /** When an event may enter a history: nothing tells a client of completion
      before every accepted trigger has run. */
  ghost predicate Ordered(before: Log, e: Event) {
    && Admissible(before, e)
    && (e.Published? || e == Observed(true) || e.WaitDone? ==>
          Collect(before, RanOf) == Collect(before, AcceptedOf))
    && (e.SignalCall? ==> HooksRead(before, e.client) == Some(Collect(before, HookOf)))
  }

  ghost predicate Inv(s: State) {
    && Control(s)
    && Facts(s)
    && WaitsOk(s)
    && TriggersOk(s)
    && CloseTriggerOk(s)
    && CallersOk(s)
    && CallsOk(s)
    && Always(s.log, Ordered)
  }

  // ----- preservation

  lemma ControlKeptByStep(s: State, t: Step)
    requires Control(s) && StepEnabled(s, t)
    ensures Control(StepUpdate(s, t))
  {
    hide ReadLocked;
  }

  lemma ControlKeptByOther(s: State, a: Action)
    requires Control(s) && Enabled(s, a) && !a.Transition?
    ensures Control(Update(s, a))
  {
    hide ReadLocked, WaitUpdate, SignalUpdate, WaitEnabled, SignalEnabled;
  }

  lemma ControlKept(s: State, a: Action)
    requires Control(s) && Enabled(s, a)
    ensures Control(Next(s, a))
  {
    if a.Transition? {
      ControlKeptByStep(s, a.step);
    } else {
      ControlKeptByOther(s, a);
    }
    hide Enabled, StepUpdate, StepEnabled, Emit;
    ControlIgnores(Update(s, a), s.log + Emit(s, a));
  }

  lemma ControlIgnores(s: State, log: Log)
    requires Control(s)
    ensures Control(s.(log := log))
  {
  }

  lemma FactsEmitted(s: State, a: Action)
    requires Enabled(s, a)
    ensures WaitReturn in Emit(s, a) <==> a.Exit? && a.exitStep.WaitReturns?
    ensures CloseCall in Emit(s, a) <==> a == Transition(CloseExecutor)
    ensures Published in Emit(s, a) <==> a == Transition(ReleaseWaiters)
  {
    if a == Transition(RunTrigger) {
      RanOneIs(s.triggers[s.pc.done], s.info.closers);
    }
  }

  lemma RanOneIs(t: Trigger, closers: seq<nat>)
    ensures forall e :: e in RanOne(t, closers) ==> e.Ran? || e.CloserRan?
  {
  }

  lemma FactsKept(s: State, a: Action)
    requires Control(s) && Facts(s) && Enabled(s, a)
    ensures Facts(Next(s, a))
  {
    FactsEmitted(s, a);
  }

  lemma WaitsKept(s: State, a: Action)
    requires Control(s) && WaitsOk(s) && Enabled(s, a)
    ensures WaitsOk(Next(s, a))
  {
    var s' := Next(s, a);
    forall c | c in s'.waits ensures WaitOk(s', s'.waits[c]) {
      if c in s.waits {
        assert WaitOk(s, s.waits[c]);
      }
    }
  }

  lemma OthersEmit(s: State, a: Action)
    requires Enabled(s, a)
    ensures !(a.Lock? && a.section.RegisteringTrigger?) ==> forall e :: e in Emit(s, a) ==> AcceptedOf(e).None?
    ensures !(a.Lock? && a.section.RegisteringSignalTrigger?) ==> forall e :: e in Emit(s, a) ==> HookOf(e).None?
  {
    if a == Transition(RunTrigger) {
      RanOneIs(s.triggers[s.pc.done], s.info.closers);
    }
  }

  /** What an action adds to the collected registrations and runs. */
  lemma AcceptedBy(s: State, a: Action)
    requires Enabled(s, a)
    ensures s.triggers + Collect(Emit(s, a), AcceptedOf) == Update(s, a).triggers
  {
    if !(a.Lock? && a.section.RegisteringTrigger?) {
      OthersEmit(s, a);
      CollectNothing(Emit(s, a), AcceptedOf);
    }
  }

  lemma HooksBy(s: State, a: Action)
    requires Enabled(s, a)
    ensures s.signalTriggers + Collect(Emit(s, a), HookOf) == Update(s, a).signalTriggers
  {
    if !(a.Lock? && a.section.RegisteringSignalTrigger?) {
      OthersEmit(s, a);
      CollectNothing(Emit(s, a), HookOf);
    }
  }

  lemma NoRunsBy(s: State, a: Action, e: Event)
    requires Enabled(s, a) && a != Transition(RunTrigger) && e in Emit(s, a)
    ensures RanOf(e).None? && CloserOf(e).None?
  {
  }

  lemma RunsBy(s: State, a: Action)
    requires Enabled(s, a)
    ensures Collect(Emit(s, a), RanOf) == if a == Transition(RunTrigger) then [s.triggers[s.pc.done]] else []
    ensures Collect(Emit(s, a), CloserOf) ==
            if a == Transition(RunTrigger) then ClosersCalled([s.triggers[s.pc.done]], s.info.closers) else []
  {
    if a == Transition(RunTrigger) {
      CollectRanOne(s.triggers[s.pc.done], s.info.closers);
      assert ClosersCalled([], s.info.closers) == [];
    } else {
      forall e | e in Emit(s, a) ensures RanOf(e).None? && CloserOf(e).None? {
        NoRunsBy(s, a, e);
      }
      hide Emit, Enabled;
      CollectNothing(Emit(s, a), RanOf);
      CollectNothing(Emit(s, a), CloserOf);
    }
  }

  lemma RegistrationsKept(s: State, a: Action)
    requires TriggersOk(s) && Enabled(s, a)
    ensures Collect(Next(s, a).log, AcceptedOf) == Next(s, a).triggers
    ensures Collect(Next(s, a).log, HookOf) == Next(s, a).signalTriggers
  {
    AcceptedBy(s, a);
    HooksBy(s, a);
    CollectConcat(s.log, Emit(s, a), AcceptedOf);
    CollectConcat(s.log, Emit(s, a), HookOf);
  }

  lemma RanSoFarBy(s: State, a: Action)
    requires Control(s) && Enabled(s, a) && (s.pc.Finishing? ==> s.pc.done <= |s.triggers|)
    ensures var s' := Update(s, a);
            && (s'.pc.Finishing? ==> s'.pc.done <= |s'.triggers|)
            && RanSoFar(s') == RanSoFar(s) + Added(s, a)
  {
    if s.pc.Finishing? {
      assert s.triggers[..|s.triggers|] == s.triggers;
    }
  }

  /** How the triggers and closers that ran grow. */
  lemma RunsConcat(log: Log, evs: Log, ran: seq<Trigger>, more: seq<Trigger>, closers: seq<nat>)
    requires Collect(log, RanOf) == ran && Collect(log, CloserOf) == ClosersCalled(ran, closers)
    requires Collect(evs, RanOf) == more && Collect(evs, CloserOf) == ClosersCalled(more, closers)
    ensures Collect(log + evs, RanOf) == ran + more
    ensures Collect(log + evs, CloserOf) == ClosersCalled(ran + more, closers)
  {
    hide Collect, ClosersCalled;
    CollectConcat(log, evs, RanOf);
    CollectConcat(log, evs, CloserOf);
    ClosersCalledConcat(ran, more, closers);
  }

  /** What a step adds to them. */
  function Added(s: State, a: Action): seq<Trigger>
    requires Enabled(s, a)
  {
    if a == Transition(RunTrigger) then [s.triggers[s.pc.done]] else []
  }

  lemma RunsAdded(s: State, a: Action)
    requires Control(s) && TriggersOk(s) && Enabled(s, a)
    ensures Collect(s.log + Emit(s, a), RanOf) == RanSoFar(s) + Added(s, a)
    ensures Collect(s.log + Emit(s, a), CloserOf) == ClosersCalled(RanSoFar(s) + Added(s, a), s.closers)
  {
    RunsBy(s, a);
    assert ClosersCalled([], s.closers) == [];
    assert s.info.closers == s.closers;
    hide Collect, ClosersCalled, Emit, RanSoFar;
    RunsConcat(s.log, Emit(s, a), RanSoFar(s), Added(s, a), s.closers);
  }

  lemma ClosersStay(s: State, a: Action)
    requires Enabled(s, a)
    ensures Update(s, a).closers == s.closers
  {
    hide WaitUpdate, SignalUpdate, WaitEnabled, SignalEnabled, ReadLocked;
  }

  lemma RunsKept(s: State, a: Action)
    requires Control(s) && TriggersOk(s) && Enabled(s, a)
    ensures var t := Next(s, a);
            && (t.pc.Finishing? ==> t.pc.done <= |t.triggers|)
            && Collect(t.log, RanOf) == RanSoFar(t)
            && Collect(t.log, CloserOf) == ClosersCalled(RanSoFar(t), t.closers)
  {
    RanSoFarBy(s, a);
    RunsAdded(s, a);
    ClosersStay(s, a);
    hide Collect, ClosersCalled, Emit, Update, Enabled, Control, TriggersOk, Added;
    assert RanSoFar(Next(s, a)) == RanSoFar(Update(s, a));
  }

  lemma TriggersKept(s: State, a: Action)
    requires Control(s) && TriggersOk(s) && Enabled(s, a)
    ensures TriggersOk(Next(s, a))
  {
    RegistrationsKept(s, a);
    RunsKept(s, a);
    hide Collect, ClosersCalled, Enabled, Emit, Update, RanSoFar;
  }

  // ----- signals

  lemma CallersKept(s: State, a: Action)
    requires Control(s) && CallersOk(s) && Enabled(s, a)
    ensures CallersOk(Next(s, a))
  {
    var t := Next(s, a);
    forall c | c in t.calls ensures CallerOk(t, t.calls[c]) {
      if c in s.calls {
        assert CallerOk(s, s.calls[c]);
      }
    }
  }

  lemma NoServiceBy(s: State, a: Action, c: nat, e: Event)
    requires Enabled(s, a) && !(a.Signal? && a.caller == c) && e in Emit(s, a)
    ensures ServiceOf(c)(e).None?
  {
    if a == Transition(RunTrigger) {
      RanOneIs(s.triggers[s.pc.done], s.info.closers);
    }
  }

  lemma CallKeptByOthers(s: State, a: Action, c: nat)
    requires InStage(s.log, c, StageOf(s, c)) && Enabled(s, a) && !(a.Signal? && a.caller == c)
    ensures InStage(Next(s, a).log, c, StageOf(Next(s, a), c))
  {
    forall e | e in Emit(s, a) ensures ServiceOf(c)(e).None? {
      NoServiceBy(s, a, c, e);
    }
    StageKept(s.log, Emit(s, a), c, StageOf(s, c));
    SameStage(s, a, c);
  }

  lemma StepSetup(s: State, t: Step)
    requires StepEnabled(s, t)
    ensures StepUpdate(s, t).cfg == s.cfg && StepUpdate(s, t).calls == s.calls
  {
  }

  lemma SameStage(s: State, a: Action, c: nat)
    requires Enabled(s, a) && !(a.Signal? && a.caller == c)
    ensures StageOf(Next(s, a), c) == StageOf(s, c)
  {
    if a.Transition? {
      StepSetup(s, a.step);
    }
    hide StepUpdate, StepEnabled, Emit, WaitUpdate, SignalUpdate, WaitEnabled, SignalEnabled;
    assert Next(s, a).cfg == s.cfg;
  }

  lemma CallKeptBySignal(s: State, c: nat, g: SignalStep)
    requires Control(s) && InStage(s.log, c, StageOf(s, c)) && SignalEnabled(s, c, g)
    requires Collect(s.log, HookOf) == s.signalTriggers
    ensures InStage(s.log + SignalEmit(s, c, g), c, StageOf(s.(calls := s.calls[c := SignalUpdate(s, c, g)]), c))
  {
    hide InStage;
    if g.Acquire? {
      if s.info.complete {
        StageKept(s.log, [Observed(true)], c, Idle);
      } else {
        HooksAreRead(s.log, c);
      }
    } else if g.RunHook? {
      HookRuns(s.log, c, s.calls[c].hooks, s.calls[c].verdicts, g.skip);
    } else if g.Send? {
      SignalGoesOut(s.log, c, s.calls[c].hooks, s.calls[c].verdicts, MakeCompatible(s.cfg.windows, s.calls[c].sig), g.fails);
    } else {
      if g.Skip? {
        SignalIsSkipped(s.log, c, s.calls[c].hooks, s.calls[c].verdicts, MakeCompatible(s.cfg.windows, s.calls[c].sig));
      }
      assert s.log + [] == s.log;
    }
  }

  lemma CallsKept(s: State, a: Action)
    requires Control(s) && CallsOk(s) && TriggersOk(s) && Enabled(s, a)
    ensures CallsOk(Next(s, a))
  {
    hide InStage;
    forall c ensures InStage(Next(s, a).log, c, StageOf(Next(s, a), c)) {
      if a.Signal? && a.caller == c {
        CallKeptBySignal(s, c, a.signalStep);
      } else {
        CallKeptByOthers(s, a, c);
      }
    }
  }

  // ----- the history

  lemma RunningFacts(s: State)
    requires Control(s) && Facts(s) && Running(s.pc)
    ensures Published !in s.log && CloseCall !in s.log && !s.info.complete
  {
  }

  lemma SendOrdered(log: Log, c: nat, sig: int, failed: bool, hooks: seq<nat>, verdicts: seq<bool>)
    requires InStage(log, c, Underway(hooks, verdicts)) && |verdicts| == |hooks| && true !in verdicts
    requires Published !in log && CloseCall !in log && hooks == Collect(log, HookOf)
    ensures Ordered(log, SignalCall(c, sig, failed))
  {
    SignalCallAdmissible(log, c, sig, failed, Underway(hooks, verdicts));
  }

  lemma SendStep(s: State, c: nat, fails: bool)
    requires TriggersOk(s) && CallersOk(s) && SignalEnabled(s, c, Send(fails)) && Published !in s.log && CloseCall !in s.log
    requires InStage(s.log, c, StageOf(s, c))
    ensures Ordered(s.log, SignalEmit(s, c, Send(fails))[0])
  {
    hide InStage, Ordered;
    assert CallerOk(s, s.calls[c]);
    SendOrdered(s.log, c, MakeCompatible(s.cfg.windows, s.calls[c].sig), fails, s.calls[c].hooks, s.calls[c].verdicts);
  }

  lemma QuietOrdered(log: Log, e: Event)
    requires Published !in log && CloseCall !in log && (e.OperationStarted? || e.SignalTriggerRan?)
    ensures Ordered(log, e)
  {
  }

  lemma SignalOrdered(s: State, c: nat, g: SignalStep)
    requires Control(s) && Facts(s) && TriggersOk(s) && CallersOk(s) && SignalEnabled(s, c, g)
    requires InStage(s.log, c, StageOf(s, c)) && SignalEmit(s, c, g) != []
    ensures Ordered(s.log, SignalEmit(s, c, g)[0])
  {
    hide InStage;
    if g.Acquire? && s.info.complete {
      assert s.waitersReleased;
    } else {
      assert CallerOk(s, s.calls[c]);
      RunningFacts(s);
      hide Control, Facts, TriggersOk, CallersOk, Ordered;
      if g.Send? {
        SendStep(s, c, g.fails);
      } else {
        QuietOrdered(s.log, SignalEmit(s, c, g)[0]);
      }
    }
  }

  lemma FinishOrdered(s: State, now: int, i: nat)
    requires Control(s) && Facts(s) && StepEnabled(s, BeginFinish(now)) && i < |StepEmit(s, BeginFinish(now))|
    ensures Ordered(s.log + StepEmit(s, BeginFinish(now))[..i], StepEmit(s, BeginFinish(now))[i])
  {
    var before := StepEmit(s, BeginFinish(now))[..i];
    assert Published !in before && CloseCall !in before;
  }

  lemma RunTriggerOrdered(s: State, i: nat)
    requires Control(s) && Facts(s) && StepEnabled(s, RunTrigger) && i < |StepEmit(s, RunTrigger)|
    ensures Ordered(s.log + StepEmit(s, RunTrigger)[..i], StepEmit(s, RunTrigger)[i])
  {
    RanOneIs(s.triggers[s.pc.done], s.info.closers);
    assert Published !in StepEmit(s, RunTrigger);
    assert StepEmit(s, RunTrigger)[i] in StepEmit(s, RunTrigger);
  }

  lemma StepOrdered(s: State, t: Step)
    requires Control(s) && Facts(s) && TriggersOk(s) && StepEnabled(s, t) && !t.BeginFinish? && !t.RunTrigger?
    ensures |StepEmit(s, t)| <= 1
    ensures |StepEmit(s, t)| == 1 ==> Ordered(s.log, StepEmit(s, t)[0])
  {
    if t.ReleaseWaiters? {
      assert s.triggers[..|s.triggers|] == s.triggers;
    }
  }

  lemma WaitOrdered(s: State, c: nat, w: WaitStep)
    requires Control(s) && Facts(s) && WaitsOk(s) && TriggersOk(s) && WaitEnabled(s, c, w)
    ensures |WaitEmit(s, c, w)| <= 1
    ensures |WaitEmit(s, c, w)| == 1 ==> Ordered(s.log, WaitEmit(s, c, w)[0])
  {
    if c in s.waits {
      assert WaitOk(s, s.waits[c]);
    }
  }

  lemma SectionOrdered(s: State, x: Section)
    requires Control(s) && Facts(s) && TriggersOk(s) && SectionEnabled(s, x)
    ensures |SectionEmit(s, x)| <= 1
    ensures |SectionEmit(s, x)| == 1 ==> Ordered(s.log, SectionEmit(s, x)[0])
  {
    hide ReadLocked;
  }

  lemma SingleOrdered(s: State, a: Action)
    requires Control(s) && Facts(s) && WaitsOk(s) && TriggersOk(s) && Enabled(s, a)
    requires a.Exit? || a.Wait? || a.Lock?
    ensures |Emit(s, a)| <= 1
    ensures |Emit(s, a)| == 1 ==> Ordered(s.log, Emit(s, a)[0])
  {
    if a.Wait? {
      WaitOrdered(s, a.client, a.waitStep);
      hide Ordered, WaitEmit, WaitEnabled;
    } else if a.Lock? {
      SectionOrdered(s, a.section);
      hide Ordered, SectionEmit, SectionEnabled;
    }
    hide WaitsOk, TriggersOk;
  }

  lemma HistoryKept(s: State, a: Action)
    requires Control(s) && Facts(s) && WaitsOk(s) && TriggersOk(s) && CallersOk(s) && CallsOk(s)
    requires Always(s.log, Ordered) && Enabled(s, a)
    ensures Always(Next(s, a).log, Ordered)
  {
    hide Ordered, Enabled;
    forall i | 0 <= i < |Emit(s, a)| ensures Ordered(s.log + Emit(s, a)[..i], Emit(s, a)[i]) {
      EventOrdered(s, a, i);
    }
    AlwaysConcat(s.log, Emit(s, a), Ordered);
  }

  lemma EventOrdered(s: State, a: Action, i: nat)
    requires Control(s) && Facts(s) && WaitsOk(s) && TriggersOk(s) && CallersOk(s) && CallsOk(s)
    requires Enabled(s, a) && i < |Emit(s, a)|
    ensures Ordered(s.log + Emit(s, a)[..i], Emit(s, a)[i])
  {
    hide Ordered, Control, Facts, WaitsOk, TriggersOk, CallersOk, InStage;
    if a.Transition? && a.step.BeginFinish? {
      FinishOrdered(s, a.step.now, i);
    } else if a.Transition? && a.step.RunTrigger? {
      RunTriggerOrdered(s, i);
    } else {
      if a.Transition? {
        StepOrdered(s, a.step);
      } else if a.Signal? {
        assert InStage(s.log, a.caller, StageOf(s, a.caller));
        assert |SignalEmit(s, a.caller, a.signalStep)| <= 1;
        SignalOrdered(s, a.caller, a.signalStep);
      } else {
        SingleOrdered(s, a);
      }
      assert s.log + Emit(s, a)[..0] == s.log;
    }
  }

  lemma StepKeepsTriggers(s: State, t: Step)
    requires StepEnabled(s, t)
    ensures StepUpdate(s, t).triggers == s.triggers
  {
  }

  lemma CloseTriggerKept(s: State, a: Action)
    requires CloseTriggerOk(s) && Enabled(s, a)
    ensures CloseTriggerOk(Next(s, a))
  {
    if a.Transition? {
      StepKeepsTriggers(s, a.step);
      hide StepUpdate, StepEnabled;
    }
    hide Emit, ReadLocked, WaitUpdate, SignalUpdate, WaitEnabled, SignalEnabled;
  }

  lemma InvKept(s: State, a: Action)
    requires Inv(s) && Enabled(s, a)
    ensures Inv(Next(s, a))
  {
    ControlKept(s, a);
    FactsKept(s, a);
    WaitsKept(s, a);
    TriggersKept(s, a);
    CloseTriggerKept(s, a);
    CallersKept(s, a);
    CallsKept(s, a);
    HistoryKept(s, a);
  }

  lemma InvInit(cfg: Config, tags: seq<string>, closers: seq<nat>)
    ensures Inv(Init(cfg, tags, closers))
  {
    var s := Init(cfg, tags, closers);
    assert s.log[..0] == [];
    assert Collect(s.log, AcceptedOf) == [OptionsClose];
    CollectNothing(s.log, HookOf);
    CollectNothing(s.log, RanOf);
    CollectNothing(s.log, CloserOf);
    NoCallsYet(s.log);
  }

  lemma NoCallsYet(log: Log)
    requires log == [Accepted(OptionsClose)]
    ensures forall c :: InStage(log, c, Idle)
  {
    forall c ensures InStage(log, c, Idle) {
      CollectNothing(log, ServiceOf(c));
    }
  }

  lemma {:induction false} InvRun(s: State, acts: seq<Action>)
    requires Inv(s) && IsRun(s, acts)
    ensures Inv(After(s, acts))
    decreases |acts|
  {
    if acts != [] {
      InvKept(s, acts[0]);
      InvRun(Next(s, acts[0]), acts[1..]);
    }
  }

  // ----- what the invariants mean

  ghost predicate EndsIn(tags: seq<string>, acts: seq<Action>, s: State) {
    IsRun(Init(s.cfg, tags, s.closers), acts) && After(Init(s.cfg, tags, s.closers), acts) == s
  }

  /** Some run of a process ends in `s`. */
  ghost predicate Reachable(s: State) {
    exists tags, acts :: EndsIn(tags, acts, s)
  }

  lemma ReachableInv(s: State)
    requires Reachable(s)
    ensures Inv(s)
  {
    var tags, acts :| EndsIn(tags, acts, s);
    InvInit(s.cfg, tags, s.closers);
    InvRun(Init(s.cfg, tags, s.closers), acts);
  }

  /** Once the waiters are released, the triggers that ran are exactly the
      accepted ones, each once and in registration order. */
  lemma EveryAcceptedTriggerRuns(s: State)
    requires Reachable(s)
    ensures s.waitersReleased ==> Collect(s.log, RanOf) == Collect(s.log, AcceptedOf)
    ensures Collect(s.log, RanOf) <= Collect(s.log, AcceptedOf)
  {
    ReachableInv(s);
  }

  /** Whenever a client is told that the process is complete, or a `Wait` that
      was not cancelled returns, every trigger accepted so far has run; and no
      trigger is accepted or run afterwards. */
  lemma TriggersBeforeObservers(s: State, j: nat)
    requires Reachable(s) && j < |s.log|
    ensures s.log[j] == Observed(true) || s.log[j].WaitDone? ==>
              Collect(s.log[..j], RanOf) == Collect(s.log[..j], AcceptedOf)
    ensures s.log[j].Ran? || s.log[j].Accepted? ==> Published !in s.log[..j]
    ensures s.log[j].Refused? || s.log[j].WaitDone? || s.log[j] == Observed(true) ==> Published in s.log[..j]
  {
    ReachableInv(s);
    assert Ordered(s.log[..j], s.log[j]);
  }

  /** A refused trigger never runs, unless an earlier registration of the same
      trigger was accepted. */
  lemma RefusedNeverRuns(s: State, t: Trigger)
    requires Reachable(s) && Refused(t) in s.log && Accepted(t) !in s.log
    ensures Ran(t) !in s.log
  {
    if Ran(t) in s.log {
      var j :| 0 <= j < |s.log| && s.log[j] == Ran(t);
      CollectHas(s.log, RanOf, j);
      EveryAcceptedTriggerRuns(s);
      CollectOnly(s.log, t);
    }
  }

  lemma {:induction false} CollectOnly(log: Log, t: Trigger)
    requires t in Collect(log, AcceptedOf)
    ensures Accepted(t) in log
  {
    var n := |log| - 1;
    if log[n] != Accepted(t) {
      CollectOnly(log[..n], t);
    }
  }

  lemma OutcomeKeptOnceComplete(s: State, a: Action)
    requires Control(s) && s.info.complete && Enabled(s, a)
    ensures Next(s, a).info == s.info && Next(s, a).err == s.err
  {
  }

  /** Once complete, the outcome never changes. */
  lemma {:induction false} OutcomeFrozen(s: State, acts: seq<Action>)
    requires Control(s) && s.info.complete && IsRun(s, acts)
    ensures After(s, acts).info == s.info && After(s, acts).err == s.err
    decreases |acts|
  {
    if acts != [] {
      ControlKept(s, acts[0]);
      OutcomeKeptOnceComplete(s, acts[0]);
      OutcomeFrozen(Next(s, acts[0]), acts[1..]);
    }
  }

  /** Any two `Wait` calls that were not cancelled return the same result, which
      is what the executor reported. */
  lemma WaitsAgree(s: State, c: nat, d: nat)
    requires Reachable(s) && c in s.waits && d in s.waits && s.waits[c].Done? && s.waits[d].Done?
    ensures s.waits[c] == s.waits[d]
    ensures s.report.Some? && s.waits[c].err == s.report.value.err
    ensures s.report.value.signal.Some? ==> s.waits[c].code == s.report.value.signal.value
    ensures s.report.value.signal.None? ==> s.waits[c].code == s.report.value.exitCode
  {
    ReachableInv(s);
    assert WaitOk(s, s.waits[c]) && WaitOk(s, s.waits[d]);
  }

  /** Where a `Wait` call goes by its steps: it reads the outcome if it sees that the
      process is not running, or that the waiters were released, and otherwise ends
      only if its own context does. */
  lemma WaitAnswers(s: State, c: nat, w: WaitStep)
    requires Reachable(s) && WaitEnabled(s, c, w) && !w.Begin?
    ensures var pc := Next(s, Wait(c, w)).waits[c];
            && (w.Check? ==> pc == if s.info.complete then ReadingBoth else Selecting)
            && (w.SeeReleased? ==> pc == ReadingCode)
            && (w.OwnCancel? ==> pc == Cancelled)
            && (w.ReadBoth? ==> pc == Done(s.info.exitCode, s.err))
            && (w.ReadCode? ==> pc == ReadingErr(s.info.exitCode))
            && (w.ReadErr? ==> pc == Done(s.info.exitCode, s.err))
  {
    ReachableInv(s);
    hide Facts, TriggersOk, CloseTriggerOk, CallersOk, CallsOk, WaitEmit, OutcomeFits;
    assert WaitOk(s, s.waits[c]);
  }

  /** What a completed process reports: the executor's error and success, the number
      of the signal that ended the process or else its exit code, and a timeout
      exactly if it was killed, or on Windows exited with code 1, after its deadline.
      Before that it reports a running process without an outcome. */
  lemma PublishedOutcome(s: State)
    requires Reachable(s)
    ensures s.info.complete <==> !s.info.isRunning
    ensures !s.info.complete ==>
              s.err.None? && !s.info.successful && !s.info.timeout && s.info.exitCode == 0
    ensures s.info.complete ==>
              && s.report.Some?
              && var r := s.report.value;
              && s.err == r.err && s.info.successful == r.success
              && (r.signal.Some? ==> s.info.exitCode == r.signal.value)
              && (r.signal.None? ==> s.info.exitCode == r.exitCode)
              && (s.info.timeout <==>
                    && s.cfg.deadline.Some? && s.info.endAt > s.cfg.deadline.value
                    && if r.signal.Some? then r.signal.value == 9 else s.cfg.windows && r.exitCode == 1)
  {
    ReachableInv(s);
    hide Facts, WaitsOk, TriggersOk, CloseTriggerOk, CallersOk, CallsOk, ReportedExitCode, ReportedTimeout;
    if s.report.Some? {
      ReportedMeans(s.cfg, s.report.value, s.info.endAt);
    }
  }

  lemma Admissibles(s: State)
    requires Inv(s)
    ensures RespectsExecutor(s.log) && SignalsJustified(s.log)
  {
    forall j | 0 <= j < |s.log| ensures Admissible(s.log[..j], s.log[j]) {
      assert Ordered(s.log[..j], s.log[j]);
    }
    AdmissibleMeans(s.log);
  }

  lemma ExecutorContract(s: State)
    requires Reachable(s)
    ensures RespectsExecutor(s.log)
  {
    ReachableInv(s);
    Admissibles(s);
  }

  /** Signals, with any number of `Signal` calls at once: a signal reaches the
      executor only before completion, and only after all signal triggers accepted
      by then ran for it, in order, with none asking to skip; it is the compatible
      form of what the caller asked for and is sent at most once a call; and a call
      that ran to its end answers nil exactly if the executor took the signal or a
      trigger asked to skip it.  Only calls on a complete process are turned away. */
  lemma SignalContract(s: State)
    requires Reachable(s)
    ensures forall j :: 0 <= j < |s.log| && s.log[j].SignalCall? ==>
      && Published !in s.log[..j]
      && Service(s.log[..j], s.log[j].client) ==
         [OperationStarted(s.log[j].client)] + NoneSkipped(s.log[j].client, Collect(s.log[..j], HookOf))
    ensures forall c, sig, failed :: SignalCall(c, sig, failed) in s.log ==>
      && c in s.calls
      && sig == if s.cfg.windows && s.calls[c].sig in {6, 15} then 9 else s.calls[c].sig
    ensures forall i, j :: 0 <= i < j < |s.log| && s.log[i].SignalCall? && s.log[j].SignalCall? ==>
      s.log[i].client != s.log[j].client
    ensures forall c :: c in s.calls && s.calls[c].Answered? ==>
      && (s.calls[c].ok <==> SentOrSkipped(s.log, c))
      && IsServed(s.log, c, MakeCompatible(s.cfg.windows, s.calls[c].sig), s.calls[c].answer)
    ensures forall c :: c in s.calls && s.calls[c].TurnedAway? ==> Published in s.log && !SentOrSkipped(s.log, c)
  {
    ReachableInv(s);
    Admissibles(s);
    hide InStage, IsServed, SentOrSkipped;
    forall j | 0 <= j < |s.log| && s.log[j].SignalCall?
      ensures Published !in s.log[..j]
      ensures Service(s.log[..j], s.log[j].client) ==
              [OperationStarted(s.log[j].client)] + NoneSkipped(s.log[j].client, Collect(s.log[..j], HookOf))
    {
      assert Ordered(s.log[..j], s.log[j]);
    }
    forall c, sig, failed | SignalCall(c, sig, failed) in s.log
      ensures c in s.calls && sig == if s.cfg.windows && s.calls[c].sig in {6, 15} then 9 else s.calls[c].sig
    {
      SignalInStage(s.log, c, sig, failed, StageOf(s, c));
      CompatibleMeans(s.cfg.windows, s.calls[c].sig);
    }
    forall i, j | 0 <= i < j < |s.log| && s.log[i].SignalCall? && s.log[j].SignalCall?
      ensures s.log[i].client != s.log[j].client
    {
      AtMostOnce(s.log, i, j);
    }
    forall c | c in s.calls && s.calls[c].Answered?
      ensures s.calls[c].ok <==> SentOrSkipped(s.log, c)
      ensures IsServed(s.log, c, MakeCompatible(s.cfg.windows, s.calls[c].sig), s.calls[c].answer)
    {
      AnsweredIsServed(s, c);
    }
    forall c | c in s.calls && s.calls[c].TurnedAway?
      ensures Published in s.log && !SentOrSkipped(s.log, c)
    {
      TurnedAwayUnserved(s, c);
    }
  }

  lemma AnsweredIsServed(s: State, c: nat)
    requires CallsOk(s) && CallersOk(s) && c in s.calls && s.calls[c].Answered?
    ensures s.calls[c].ok <==> SentOrSkipped(s.log, c)
    ensures IsServed(s.log, c, MakeCompatible(s.cfg.windows, s.calls[c].sig), s.calls[c].answer)
  {
    assert CallerOk(s, s.calls[c]);
    assert InStage(s.log, c, StageOf(s, c));
    ServedWell(s.log, c, MakeCompatible(s.cfg.windows, s.calls[c].sig), s.calls[c].answer);
  }

  lemma TurnedAwayUnserved(s: State, c: nat)
    requires CallsOk(s) && CallersOk(s) && Facts(s) && c in s.calls && s.calls[c].TurnedAway?
    ensures Published in s.log && !SentOrSkipped(s.log, c)
  {
    assert CallerOk(s, s.calls[c]);
    assert InStage(s.log, c, StageOf(s, c));
    NothingServed(s.log, c);
  }

  /** The options' closers: none has run while the process runs, and each has run
      exactly once when the waiters are released. */
  lemma OptionsClosedOnce(s: State)
    requires Reachable(s)
    ensures s.waitersReleased ==> Collect(s.log, CloserOf) == s.closers
    ensures Running(s.pc) ==> Collect(s.log, CloserOf) == []
    ensures s.info.closers == s.closers
  {
    ReachableInv(s);
    CalledOnce(s.triggers, s.closers);
  }

  // ----- progress

  lemma RunCons(s: State, a: Action, rest: seq<Action>)
    requires Enabled(s, a) && IsRun(Next(s, a), rest)
    ensures IsRun(s, [a] + rest) && After(s, [a] + rest) == After(Next(s, a), rest)
  {
    assert ([a] + rest)[1..] == rest;
  }

  lemma {:induction false} RunJoin(s: State, a: seq<Action>, b: seq<Action>)
    requires IsRun(s, a) && IsRun(After(s, a), b)
    ensures IsRun(s, a + b) && After(s, a + b) == After(After(s, a), b)
    decreases |a|
  {
    hide Enabled, Next;
    if a == [] {
      assert a + b == b;
    } else {
      RunJoin(Next(s, a[0]), a[1..], b);
      RunCons(s, a[0], a[1..] + b);
      assert a + b == [a[0]] + (a[1..] + b);
    }
  }

  /** Only its `Signal` calls tell two states apart. */
  predicate SameButCalls(s: State, t: State) {
    t == s.(calls := t.calls, log := t.log) && s.log <= t.log
  }

  /** The next step of a `Signal` call that holds the read lock. */
  function NextSignal(pc: SignalPc): SignalStep
    requires Reading(pc)
  {
    if pc.Leaving? then Release
    else if |pc.verdicts| < |pc.hooks| then RunHook(false)
    else if true in pc.verdicts then Skip else Send(false)
  }

  function StepsLeft(pc: SignalPc): nat {
    match pc
    case Hooking(_, hooks, verdicts) => (if |verdicts| < |hooks| then |hooks| - |verdicts| else 0) + 2
    case Leaving(_, _) => 1
    case _ => 0
  }

  lemma SignalAdvances(s: State, c: nat)
    requires c in s.calls && CallerOk(s, s.calls[c]) && Reading(s.calls[c])
    ensures var a := Signal(c, NextSignal(s.calls[c]));
            && Enabled(s, a) && SameButCalls(s, Next(s, a))
            && Next(s, a).calls == s.calls[c := Next(s, a).calls[c]]
            && StepsLeft(Next(s, a).calls[c]) < StepsLeft(s.calls[c])
            && (Reading(Next(s, a).calls[c]) <==> StepsLeft(Next(s, a).calls[c]) > 0)
            && CallerOk(Next(s, a), Next(s, a).calls[c])
  {
  }

  /** A `Signal` call that holds the read lock can always give it up. */
  lemma {:induction false} CallerFinishes(s: State, c: nat) returns (acts: seq<Action>)
    requires c in s.calls && CallerOk(s, s.calls[c]) && Reading(s.calls[c])
    ensures IsRun(s, acts) && forall a :: a in acts ==> a.Signal?
    ensures var t := After(s, acts);
            && SameButCalls(s, t) && c in t.calls && !Reading(t.calls[c]) && t.calls == s.calls[c := t.calls[c]]
            && CallerOk(t, t.calls[c])
    decreases StepsLeft(s.calls[c])
  {
    var a := Signal(c, NextSignal(s.calls[c]));
    SignalAdvances(s, c);
    var u := Next(s, a);
    hide Enabled, Next;
    if Reading(u.calls[c]) {
      var rest := CallerFinishes(u, c);
      RunCons(s, a, rest);
      acts := [a] + rest;
      assert u.calls[c := After(u, rest).calls[c]] == s.calls[c := After(u, rest).calls[c]];
    } else {
      RunCons(s, a, []);
      acts := [a];
      assert [a] + [] == [a];
    }
  }

  function Readers(s: State): set<nat> {
    set c | c in s.calls && Reading(s.calls[c])
  }

  /** All of them can, so `finish` is not kept out. */
  lemma {:induction false} CallersFinish(s: State) returns (acts: seq<Action>)
    requires CallersOk(s)
    ensures IsRun(s, acts) && (forall a :: a in acts ==> a.Signal?) && (!ReadLocked(s) ==> acts == [])
    ensures SameButCalls(s, After(s, acts)) && !ReadLocked(After(s, acts))
    decreases Readers(s)
  {
    if !ReadLocked(s) {
      acts := [];
    } else {
      var c :| c in s.calls && Reading(s.calls[c]);
      assert CallerOk(s, s.calls[c]);
      var first := CallerFinishes(s, c);
      var u := After(s, first);
      hide Enabled, Next;
      assert Readers(u) == Readers(s) - {c};
      assert c in Readers(s);
      forall d | d in u.calls ensures CallerOk(u, u.calls[d]) {
        if d != c {
          assert CallerOk(s, s.calls[d]);
        }
      }
      var rest := CallersFinish(u);
      RunJoin(s, first, rest);
      acts := first + rest;
    }
  }

  /** The steps that `finish` takes while it holds the lock, from the moment when
      `triggers` triggers are left to run. */
  function RemainingSteps(triggers: nat): seq<Action> {
    if triggers == 0 then [Transition(ReleaseWaiters), Transition(Unlock)]
    else [Transition(RunTrigger)] + RemainingSteps(triggers - 1)
  }

  /** What `finish` leaves behind when it takes over at `s` with the executor's
      report `r`. */
  predicate Completed(s: State, t: State, r: ExitReport, now: int) {
    && t.pc.Unlocked? && t.waitersReleased
    && t.info == Finished(s.info, s.cfg, r, now) && t.err == r.err
    && t.log == s.log + ReportCalls(r) + RanAll(s.triggers, s.closers) + [Published]
  }

  lemma FinishFromHere(s: State, now: int)
    requires Control(s) && s.pc.Received? && !ReadLocked(s)
    ensures var acts := [Transition(BeginFinish(now))] + RemainingSteps(|s.triggers|);
            IsRun(s, acts) && Completed(s, After(s, acts), s.report.value, now)
  {
    var s1 := Next(s, Transition(BeginFinish(now)));
    RemainingTriggers(s1, 0);
    RunCons(s, Transition(BeginFinish(now)), RemainingSteps(|s.triggers|));
    assert s.triggers[0..] == s.triggers;
  }

  /** From the moment the exit is received, `finish` can always be carried out to
      the end, once the `Signal` calls that hold the lock have returned, and does
      what it is specified to do in one go: the outcome is the executor's report,
      every registered trigger runs in order, the options' closers with the first,
      and then the waiters are released. */
  lemma FinishCompletes(s: State, now: int) returns (waiting: seq<Action>)
    requires Inv(s) && s.pc.Received?
    ensures (forall a :: a in waiting ==> a.Signal?) && (!ReadLocked(s) ==> waiting == [])
    ensures var acts := waiting + ([Transition(BeginFinish(now))] + RemainingSteps(|s.triggers|));
            && IsRun(s, waiting) && SameButCalls(s, After(s, waiting))
            && IsRun(s, acts) && Completed(After(s, waiting), After(s, acts), s.report.value, now)
  {
    waiting := CallersFinish(s);
    FinishFromHere(After(s, waiting), now);
    RunJoin(s, waiting, [Transition(BeginFinish(now))] + RemainingSteps(|s.triggers|));
  }

  lemma RunTriggerStep(s: State)
    requires s.pc.Finishing? && s.pc.done < |s.triggers|
    ensures Enabled(s, Transition(RunTrigger))
    ensures Next(s, Transition(RunTrigger)) ==
            s.(pc := Finishing(s.pc.done + 1), log := s.log + RanOne(s.triggers[s.pc.done], s.info.closers))
  {
  }

  lemma LastSteps(s: State)
    requires s.pc == Finishing(|s.triggers|)
    ensures IsRun(s, RemainingSteps(0))
    ensures var t := After(s, RemainingSteps(0));
            && t.pc.Unlocked? && t.waitersReleased && t.info == s.info && t.err == s.err
            && t.log == s.log + [Published]
  {
    var s1 := Next(s, Transition(ReleaseWaiters));
    RunCons(s1, Transition(Unlock), []);
    RunCons(s, Transition(ReleaseWaiters), [Transition(Unlock)]);
  }

  lemma {:induction false} RemainingTriggers(s: State, n: nat)
    requires s.pc == Finishing(n) && n <= |s.triggers|
    ensures IsRun(s, RemainingSteps(|s.triggers| - n))
    ensures var t := After(s, RemainingSteps(|s.triggers| - n));
            && t.pc.Unlocked? && t.waitersReleased && t.info == s.info && t.err == s.err
            && t.log == s.log + RanAll(s.triggers[n..], s.info.closers) + [Published]
    decreases |s.triggers| - n
  {
    hide Enabled, Next;
    if n == |s.triggers| {
      LastSteps(s);
      assert s.log + RanAll(s.triggers[n..], s.info.closers) == s.log;
    } else {
      RunTriggerStep(s);
      var s1 := Next(s, Transition(RunTrigger));
      RemainingTriggers(s1, n + 1);
      RunCons(s, Transition(RunTrigger), RemainingSteps(|s.triggers| - n - 1));
      OneTriggerMore(s.log, s.triggers, n, s.info.closers);
      hide RanAll, RanOne;
    }
  }

  lemma OneTriggerMore(log: Log, ts: seq<Trigger>, n: nat, closers: seq<nat>)
    requires n < |ts|
    ensures log + RanOne(ts[n], closers) + RanAll(ts[n + 1..], closers) + [Published]
            == log + RanAll(ts[n..], closers) + [Published]
  {
    RanAllCons(ts, n, closers);
  }

  lemma RanAllCons(ts: seq<Trigger>, n: nat, closers: seq<nat>)
    requires n < |ts|
    ensures RanAll(ts[n..], closers) == RanOne(ts[n], closers) + RanAll(ts[n + 1..], closers)
  {
    RanAllConcat([ts[n]], ts[n + 1..], closers);
    assert ts[n..] == [ts[n]] + ts[n + 1..];
    assert RanAll([ts[n]][..0], closers) == [];
  }
}
