/** Progress of the blocking process's reactor: from wherever it stands it can
    run to its end, in a bounded number of its own steps, and publishes the
    outcome on the way. */
module BlockingProgress {
  import opened Wrappers
  import opened Lifecycle
  import opened Signals
  import opened Blocking
  import opened BlockingProofs

  // ----- a client's operation

  /** An upper bound on the steps left of the operation that is being served. */
  function Rank(s: State): nat {
    match s.reactor
    case RunOp(_) => |s.shared.signalTriggers| + 3
    case Hooking(_, hooks, verdicts) => (if |verdicts| < |hooks| then |hooks| - |verdicts| else 0) + 2
    case Replying(_, _) => 1
    case _ => 0
  }

  /** Whatever signal triggers answer, each step brings the operation closer to
      its end. */
  lemma OperationAdvances(s: State, o: Operation)
    requires OperationEnabled(s, o)
    ensures Rank(Next(s, Operate(o))) < Rank(s)
  {
  }

  /** The next step of the operation, when no trigger asks to skip. */
  function NextOperation(s: State): Operation
    requires Operating(s)
  {
    match s.reactor
    case Hooking(_, hooks, verdicts) =>
      if |verdicts| < |hooks| then RunHook(false) else if true in verdicts then SkipSignal else SendSignal(false)
    case Replying(_, _) => SendReply
    case _ =>
      match s.clients[s.reactor.client].kind
      case KInfo => RunInfo
      case KRunning => RunRunning(true)
      case KWait => RunWait
      case KSignal(_) => ReadHooks
  }

  lemma OperationContinues(s: State)
    requires Inv(s) && InLoop(s.reactor) && !s.reactor.Loop?
    ensures Operating(s) && OperationEnabled(s, NextOperation(s))
  {
    var c := s.reactor.client;
    assert ClientOk(s, c, s.clients[c]);
    if s.reactor.Hooking? {
      assert InStage(s.log, c, StageOf(s, c));
    }
  }

  lemma OperationFrame(s: State, o: Operation)
    requires OperationEnabled(s, o)
    ensures var t := Next(s, Operate(o));
            InLoop(t.reactor) && t.exit == s.exit && t.ctxDone == s.ctxDone && t.report == s.report
  {
  }

  lemma {:induction false} OperationEnds(s: State) returns (acts: seq<Action>)
    requires Reachable(s) && InLoop(s.reactor)
    ensures |acts| <= Rank(s) && (forall a :: a in acts ==> a.Operate?)
    ensures IsRun(s, acts) && Reachable(After(s, acts))
    ensures var t := After(s, acts);
            t.reactor.Loop? && t.exit == s.exit && t.ctxDone == s.ctxDone && t.report == s.report
    decreases Rank(s)
  {
    if s.reactor.Loop? {
      acts := [];
    } else {
      ReachableInv(s);
      OperationContinues(s);
      var a := Operate(NextOperation(s));
      OperationAdvances(s, a.operation);
      OperationFrame(s, a.operation);
      ReachableStep(s, a);
      var rest := OperationEnds(Next(s, a));
      RunCons(s, a, rest);
      acts := [a] + rest;
    }
  }

  lemma RunCons(s: State, a: Action, rest: seq<Action>)
    requires Enabled(s, a) && IsRun(Next(s, a), rest)
    ensures IsRun(s, [a] + rest) && After(s, [a] + rest) == After(Next(s, a), rest)
  {
    assert ([a] + rest)[1..] == rest;
  }

  lemma {:induction false} RunJoin(s: State, a: seq<Action>, b: seq<Action>)
    requires IsRun(s, a) && IsRun(After(s, a), b)
    ensures IsRun(s, a + b) && After(s, a + b) == After(After(s, a), b)
    decreases |b|
  {
    hide Enabled, Next, Update, Emit;
    if b == [] {
      assert a + b == a;
    } else {
      RunConcat(s, a, b[0]);
      RunJoin(s, a + [b[0]], b[1..]);
      assert a + b == a + [b[0]] + b[1..];
    }
  }

  // ----- after the loop

  /** How many steps the reactor has taken since it left its loop. */
  function Place(pc: ReactorPc): nat {
    match pc
    case Snapped(_, _) => 1
    case Triggered(_, _) => 2
    case ErrSet(_) => 3
    case InfoSet => 4
    case ChannelClosed => 5
    case Exited => 6
    case _ => 0
  }

  function Ending(now: int): (r: seq<Action>)
    ensures |r| == 6
  {
    [React(Snapshot(now)), React(RunTriggers), React(SetErr), React(SetInfo), React(CloseComplete), React(CloseExecutor)]
  }

  lemma EndingStep(s: State, now: int)
    requires Inv(s) && !InLoop(s.reactor) && !s.reactor.Exited?
    ensures var a := Ending(now)[Place(s.reactor)];
            Enabled(s, a) && !InLoop(Next(s, a).reactor) && Place(Next(s, a).reactor) == Place(s.reactor) + 1
  {
    hide Facts, ClientsOk, CallsOk, InfosOk, TriggersOk, CloseTriggerOk, TagsOk, ReactorEmit;
  }

  function ReactorSteps(acts: seq<Action>): nat {
    if acts == [] then 0 else (if acts[0].React? then 1 else 0) + ReactorSteps(acts[1..])
  }

  /** In every run after the reactor has left its loop, whoever takes the other
      steps: it never returns to the loop or serves a client, each of its own steps
      brings it one closer to its end, so it takes at most six, and it is at its end
      exactly when it has taken those that were left. */
  lemma {:induction false} NothingHoldsItBack(s: State, acts: seq<Action>)
    requires !InLoop(s.reactor) && IsRun(s, acts)
    ensures var t := After(s, acts);
            && !InLoop(t.reactor) && (forall a :: a in acts ==> !a.Operate?)
            && Place(s.reactor) + ReactorSteps(acts) == Place(t.reactor) <= 6
            && (t.reactor.Exited? <==> Place(s.reactor) + ReactorSteps(acts) == 6)
    decreases |acts|
  {
    if acts != [] {
      OneStep(s, acts[0]);
      hide Enabled, Next;
      NothingHoldsItBack(Next(s, acts[0]), acts[1..]);
      forall a | a in acts ensures !a.Operate? {
        assert a == acts[0] || a in acts[1..];
      }
    }
  }

  lemma OneStep(s: State, a: Action)
    requires !InLoop(s.reactor) && Enabled(s, a)
    ensures !InLoop(Next(s, a).reactor) && !a.Operate?
    ensures Place(Next(s, a).reactor) == Place(s.reactor) + if a.React? then 1 else 0
  {
    if a.React? {
      ReactorAdvances(s, a.reactorStep);
    }
  }

  lemma ReactorAdvances(s: State, r: ReactorStep)
    requires ReactorEnabled(s, r) && !InLoop(s.reactor)
    ensures !InLoop(ReactorUpdate(s, r).reactor) && Place(ReactorUpdate(s, r).reactor) == Place(s.reactor) + 1
  {
  }

  lemma EndingSplit(now: int, p: nat)
    requires p < 6
    ensures Ending(now)[p..] == [Ending(now)[p]] + Ending(now)[p + 1..]
  {
  }

  lemma EndingAdvances(s: State, now: int)
    requires Reachable(s) && !InLoop(s.reactor) && !s.reactor.Exited?
    ensures Place(s.reactor) < 6
    ensures var a := Ending(now)[Place(s.reactor)];
            && Enabled(s, a) && Reachable(Next(s, a))
            && !InLoop(Next(s, a).reactor) && Place(Next(s, a).reactor) == Place(s.reactor) + 1
  {
    ReachableInv(s);
    EndingStep(s, now);
    hide Inv, Enabled, Next, Ending, Reachable;
    ReachableStep(s, Ending(now)[Place(s.reactor)]);
  }

  lemma {:induction false} EndingRuns(s: State, now: int)
    requires Reachable(s) && !InLoop(s.reactor)
    ensures var acts := Ending(now)[Place(s.reactor)..];
            IsRun(s, acts) && Reachable(After(s, acts)) && After(s, acts).reactor.Exited?
    decreases 6 - Place(s.reactor)
  {
    hide Enabled, Next, Ending, Reachable;
    if !s.reactor.Exited? {
      EndingAdvances(s, now);
      var a := Ending(now)[Place(s.reactor)];
      EndingRuns(Next(s, a), now);
      RunCons(s, a, Ending(now)[Place(s.reactor) + 1..]);
      EndingSplit(now, Place(s.reactor));
    }
  }

  /** The reactor's `select` can leave the loop. */
  predicate CanLeave(s: State) {
    s.exit.Returned? || s.exit.Closed? || s.ctxDone
  }

  lemma Leaves(s: State) returns (a: Action)
    requires Reachable(s) && s.reactor.Loop? && CanLeave(s)
    ensures a.React? && Enabled(s, a) && Reachable(Next(s, a)) && !InLoop(Next(s, a).reactor)
  {
    a := React(if s.exit.Returned? then ReceiveExit else if s.exit.Closed? then ReceiveClosed else TakeContext);
    ReachableStep(s, a);
  }

  /** The reactor by itself can always run to its end once the executor's exit or
      the context is there to be taken, in a bounded number of steps: it finishes
      the operation it is serving, leaves the loop, and ends with the outcome
      published, the waiters released and the executor closed. */
  lemma ReactorFinishes(s: State, now: int) returns (acts: seq<Action>)
    requires Reachable(s) && (InLoop(s.reactor) ==> CanLeave(s))
    ensures IsRun(s, acts) && |acts| <= Rank(s) + 7 && forall a :: a in acts ==> a.Operate? || a.React?
    ensures var t := After(s, acts);
            && t.reactor.Exited? && t.completeClosed && CloseCall in t.log
            && t.shared.info.complete && OutcomeFits(t, t.shared.info, t.shared.err)
            && Collect(t.log, CloserOf) == t.closers
  {
    hide Enabled, Next;
    var first := LeavesLoop(s);
    var u := After(s, first);
    acts := first + Ending(now)[Place(u.reactor)..];
    EndingRuns(u, now);
    RunJoin(s, first, Ending(now)[Place(u.reactor)..]);
    ReachesEnd(After(s, acts));
  }

  lemma LeavesLoop(s: State) returns (acts: seq<Action>)
    requires Reachable(s) && (InLoop(s.reactor) ==> CanLeave(s))
    ensures IsRun(s, acts) && |acts| <= Rank(s) + 1 && forall a :: a in acts ==> a.Operate? || a.React?
    ensures Reachable(After(s, acts)) && !InLoop(After(s, acts).reactor)
  {
    acts := [];
    if InLoop(s.reactor) {
      var served := OperationEnds(s);
      var u := After(s, served);
      var a := Leaves(u);
      RunConcat(s, served, a);
      acts := served + [a];
    }
  }

  lemma ReachesEnd(t: State)
    requires Reachable(t) && t.reactor.Exited?
    ensures t.completeClosed && CloseCall in t.log
    ensures t.shared.info.complete && OutcomeFits(t, t.shared.info, t.shared.err)
    ensures Collect(t.log, CloserOf) == t.closers
  {
    ReachableInv(t);
    PublishedOutcome(t);
    OptionsClosedOnce(t);
  }

  // ----- clients

  /** How many steps of its own a call is at most from its end, once the process is
      complete. */
  function StepsLeft(pc: ClientPc): nat {
    match pc
    case Done(_) => 0
    case ReadingErr(_) => 1
    case ReadingCode(_) => 1
    case ReadingInfo => 2
    case _ => 3
  }

  /** The step of a call that has seen completion, or is about to. */
  function ToEnd(pc: ClientPc): CallStep {
    match pc
    case Checking => Check
    case ReadingInfo => ReadInfo
    case ReadingErr(_) => ReadErr
    case ReadingCode(_) => ReadCode
    case _ => SeeComplete
  }

  lemma CallAdvances(s: State, c: nat)
    requires c in s.clients && !s.clients[c].pc.Done? && s.completeClosed && s.shared.info.complete
    ensures var p := ToEnd(s.clients[c].pc);
            && CallEnabled(s, c, p) && c in CallUpdate(s, c, p).clients
            && StepsLeft(CallUpdate(s, c, p).clients[c].pc) < StepsLeft(s.clients[c].pc)
            && CallUpdate(s, c, p).completeClosed
  {
  }

  /** Once the process is complete, every pending call can return by itself within
      three steps, without its own context. */
  lemma {:induction false} CallEnds(s: State, c: nat) returns (acts: seq<Action>)
    requires Reachable(s) && c in s.clients && s.completeClosed
    ensures |acts| <= StepsLeft(s.clients[c].pc) <= 3
    ensures forall a :: a in acts ==> a.Call? && a.client == c && !a.callStep.OwnCancel?
    ensures IsRun(s, acts) && c in After(s, acts).clients && After(s, acts).clients[c].pc.Done?
    decreases StepsLeft(s.clients[c].pc)
  {
    acts := [];
    if !s.clients[c].pc.Done? {
      ClosedIsComplete(s);
      CallAdvances(s, c);
      var a := Call(c, ToEnd(s.clients[c].pc));
      assert Next(s, a).clients == CallUpdate(s, c, a.callStep).clients && Next(s, a).completeClosed;
      ReachableStep(s, a);
      hide Reachable, Enabled, Next;
      var rest := CallEnds(Next(s, a), c);
      RunCons(s, a, rest);
      acts := [a] + rest;
    }
  }

  lemma ClosedIsComplete(s: State)
    requires Reachable(s) && s.completeClosed
    ensures s.shared.info.complete
  {
    ReachableInv(s);
  }
}
