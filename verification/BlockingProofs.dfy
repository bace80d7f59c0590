/** Invariants of the blocking process over every interleaving, and what they
    mean for its clients. */
module BlockingProofs {
  import opened Wrappers
  import opened Lifecycle
  import opened Signals
  import opened Blocking

  // ----- invariants

  predicate Unpublished(pc: ReactorPc) {
    !pc.InfoSet? && !pc.ChannelClosed? && !pc.Exited?
  }

  predicate InLoop(pc: ReactorPc) {
    pc.Loop? || pc.RunOp? || pc.Hooking? || pc.Replying?
  }

  predicate BeforeTriggers(pc: ReactorPc) {
    InLoop(pc) || pc.Received? || pc.Cancelled? || pc.Snapped?
  }

  predicate CarriesInfo(pc: ReactorPc) {
    pc.Snapped? || pc.Triggered? || pc.ErrSet?
  }

  /** Where the participants stand and what is visible then. */
  predicate Control(s: State) {
    var info := s.shared.info;
    && (Unpublished(s.reactor) ==>
          !info.complete && info.isRunning && !info.successful && !info.timeout && info.exitCode == 0)
    && (!Unpublished(s.reactor) ==> info.complete && !info.isRunning)
    && (s.completeClosed <==> s.reactor.ChannelClosed? || s.reactor.Exited?)
    && (CarriesInfo(s.reactor) ==> s.reactor.info.complete && !s.reactor.info.isRunning)
    && (s.report.Some? <==> s.exit.Returned? || s.exit.Closing? || s.exit.Closed?)
    && (s.exit.Returned? ==> s.report.Some? && s.exit.err == s.report.value.err)
    && (s.reactor.Received? ==> s.report.Some?)
    && (s.branch.None? <==> InLoop(s.reactor))
    && s.shared.info.closers == s.closers
    && (CarriesInfo(s.reactor) ==> s.reactor.info.closers == s.closers)
    && ((s.exit.Closing? || s.exit.Closed?) && InLoop(s.reactor) ==> s.ctxDone)
  }

  /** What an outcome says, by the branch on which the reactor left its loop. */
  predicate OutcomeFits(s: State, info: Info, err: Option<Error>) {
    s.branch.Some? &&
    match s.branch.value
    case ByContext =>
      s.ctxDone && err == Some(ContextError) && !info.successful && !info.timeout && info.exitCode == 0
    case _ =>
      && s.report.Some?
      && var r := s.report.value;
      && info.successful == r.success
      && info.exitCode == ReportedExitCode(r)
      && info.timeout == ReportedTimeout(s.cfg, r, info.endAt, false)
      && (if s.branch.value.ByExit? then err == r.err else err.None? && s.ctxDone)
  }

  predicate OutcomeInv(s: State) {
    match s.reactor
    case Received(err) =>
      s.report.Some? && s.branch.Some? &&
      ((s.branch.value.ByExit? && err == s.report.value.err)
       || (s.branch.value.ByClosedChannel? && err.None? && s.ctxDone))
    case Cancelled => s.branch == Some(ByContext) && s.ctxDone
    case Snapped(info, err) => OutcomeFits(s, info, err)
    case Triggered(info, err) => OutcomeFits(s, info, err)
    case ErrSet(info) => OutcomeFits(s, info, s.shared.err)
    case InfoSet => OutcomeFits(s, s.shared.info, s.shared.err)
    case ChannelClosed => OutcomeFits(s, s.shared.info, s.shared.err)
    case Exited => OutcomeFits(s, s.shared.info, s.shared.err)
    case _ => true
  }

  /** Which events the history already holds. */
  predicate Facts(s: State) {
    && (WaitReturn in s.log <==> s.report.Some?)
    && (CloseCall in s.log <==> s.reactor.Exited?)
    && (Published in s.log <==> !Unpublished(s.reactor))
  }

  predicate Fits(k: Kind, r: Reply) {
    match k
    case KInfo => r.InfoReply?
    case KRunning => r.BoolReply?
    case KSignal(_) => r.SignalReply?
    case KWait => r.WaitReply?
  }

  predicate FitsResult(k: Kind, r: Result) {
    match k
    case KInfo => r.InfoResult?
    case KRunning => r.RunningResult?
    case KSignal(_) => r.SignalResult?
    case KWait => r.WaitResult? || r.WaitCancelled?
  }

  /** One client call, seen against the shared state. */
  predicate ClientOk(s: State, c: nat, cl: Client) {
    && |cl.out| <= REPLY_CAPACITY
    && (cl.out != [] ==> OperationStarted(c) in s.log && Fits(cl.kind, cl.out[0]))
    && (cl.out != [] && cl.out[0].SignalReply? ==> (cl.out[0].failed <==> cl.answer == Some(true)))
    && (cl.out != [] && cl.out[0].BoolReply? ==> PidCall(c, cl.out[0].running) in s.log)
    && (s.reactor.Replying? && s.reactor.client == c ==> (s.reactor.failed <==> cl.answer == Some(true)))
    && (s.reactor.Hooking? && s.reactor.client == c ==> cl.answer.None?)
    && (cl.answer.Some? ==> OperationStarted(c) in s.log)
    && (cl.kind.KWait? ==> cl.out == [] && !cl.pc.AwaitingReply? && !cl.pc.ReadingCode?)
    && (Serves(s.reactor, c) ==> cl.out == [] && !cl.pc.Checking?)
    && (Serves(s.reactor, c) && !s.reactor.RunOp? ==> cl.kind.KSignal? && OperationStarted(c) in s.log)
    && (s.reactor == RunOp(c) && !cl.kind.KWait? ==> OperationStarted(c) !in s.log)
    && (cl.pc.Checking? || cl.pc.Offering? ==>
          cl.out == [] && (cl.kind.KWait? || (OperationStarted(c) !in s.log && !Serves(s.reactor, c))))
    && (cl.pc.AwaitingReply? ==> Serves(s.reactor, c) || OperationStarted(c) in s.log)
    && (cl.pc.ReadingInfo? && cl.kind.KSignal? ==> OperationStarted(c) in s.log)
    && (cl.pc.ReadingInfo? && (cl.kind.KWait? || cl.kind.KSignal?) ==> s.shared.info.complete)
    && (cl.pc.ReadingErr? ==>
          cl.kind.KWait? && s.shared.info.complete && cl.pc.code == s.shared.info.exitCode)
    && !cl.pc.ReadingCode?
    && (cl.pc.Done? ==> FitsResult(cl.kind, cl.pc.result))
    && (cl.pc.Done? && cl.pc.result.WaitResult? ==>
          && s.shared.info.complete
          && cl.pc.result == WaitResult(s.shared.info.exitCode, s.shared.err))
    && (cl.pc == Done(SignalResult(true)) ==> OperationStarted(c) in s.log && !Serves(s.reactor, c))
  }

  ghost predicate ClientsOk(s: State) {
    && (forall c :: c in s.clients ==> ClientOk(s, c, s.clients[c]))
    && (s.reactor.RunOp? || s.reactor.Hooking? || s.reactor.Replying? ==> s.reactor.client in s.clients)
    && (forall c :: OperationStarted(c) in s.log ==> c in s.clients)
  }

  /** The trigger lists are the registrations of the history, and the triggers
      that ran are those registered when the trigger step was taken. */
  predicate TriggersOk(s: State) {
    && Collect(s.log, AcceptedOf) == s.shared.triggers
    && Collect(s.log, HookOf) == s.shared.signalTriggers
    && s.cut <= |s.log|
    && Collect(s.log, RanOf) ==
       (if BeforeTriggers(s.reactor) then [] else Collect(s.log[..s.cut], AcceptedOf))
    && Collect(s.log, CloserOf) ==
       (if BeforeTriggers(s.reactor) then [] else s.closers)
  }

  /** The constructor's own trigger is the first one and the only one of its kind. */
  predicate CloseTriggerOk(s: State) {
    var ts := s.shared.triggers;
    && |ts| > 0 && ts[0] == OptionsClose
    && (forall i :: 1 <= i < |ts| ==> ts[i].User?)
    && (!BeforeTriggers(s.reactor) ==> s.cut > 0)
    && |s.log| > 0 && s.log[0] == Accepted(OptionsClose)
  }

  predicate TagsOk(s: State) {
    && s.shared.info.tagList == ReplayTags(s.initialTags, s.log)
    && s.shared.tags == set x | x in s.shared.info.tagList
  }

  /** How far a client's operation on a signal is. */
  function StageOf(s: State, c: nat): Stage {
    if c !in s.clients then Idle
    else if !s.clients[c].kind.KSignal? then Plain
    else if OperationStarted(c) !in s.log then Idle
    else if s.reactor.Hooking? && s.reactor.client == c then Underway(s.reactor.hooks, s.reactor.verdicts)
    else Over(MakeCompatible(s.cfg.windows, s.clients[c].kind.sig), s.clients[c].answer)
  }

  ghost predicate CallsOk(s: State) {
    forall c :: InStage(s.log, c, StageOf(s, c))
  }

  /** Information that says the process is complete says the final outcome; other
      information says that it is running and has no outcome. */
  predicate InfoFits(s: State, info: Info) {
    && (info.complete ==> s.shared.info.complete && Outcome(info) == Outcome(s.shared.info))
    && (!info.complete ==> info.isRunning && !info.successful && !info.timeout && info.exitCode == 0)
  }

  predicate InfoOk(s: State, cl: Client) {
    && (cl.out != [] && cl.out[0].InfoReply? ==> InfoFits(s, cl.out[0].info))
    && (cl.pc.Done? && cl.pc.result.InfoResult? ==> InfoFits(s, cl.pc.result.info))
  }

  ghost predicate InfosOk(s: State) {
    forall c :: c in s.clients ==> InfoOk(s, s.clients[c])
  }

  ghost predicate Inv(s: State) {
    && Control(s)
    && OutcomeInv(s)
    && Facts(s)
    && ClientsOk(s)
    && CallsOk(s)
    && InfosOk(s)
    && Always(s.log, Admissible)
    && TriggersOk(s)
    && CloseTriggerOk(s)
    && TagsOk(s)
  }

  // ----- preservation

  lemma ControlKeptByExit(s: State, e: ExitStep)
    requires Control(s) && ExitEnabled(s, e)
    ensures Control(ExitUpdate(s, e))
  {
  }

  lemma ControlKeptByReactor(s: State, r: ReactorStep)
    requires Control(s) && ReactorEnabled(s, r)
    ensures Control(ReactorUpdate(s, r))
  {
  }

  lemma ControlKeptByOperation(s: State, o: Operation)
    requires Control(s) && OperationEnabled(s, o)
    ensures Control(OperationUpdate(s, o))
  {
    hide OperationEnabled, Replies;
    StaysInLoop(s, o);
  }

  lemma StaysInLoop(s: State, o: Operation)
    requires OperationEnabled(s, o)
    ensures InLoop(s.reactor) && InLoop(ReactorAfter(s, o))
  {
  }

  lemma ControlKeptByCall(s: State, c: nat, p: CallStep)
    requires Control(s) && CallEnabled(s, c, p)
    ensures Control(CallUpdate(s, c, p))
  {
    assert p.Offer? ==> s.reactor.Loop?;
    hide CallEnabled, ClientAfter;
  }

  lemma ControlKeptBySection(s: State, x: Section)
    requires Control(s)
    ensures Control(s.(shared := SectionUpdate(s.shared, x)))
  {
  }

  lemma ControlIgnores(s: State, log: Log)
    requires Control(s)
    ensures Control(s.(log := log)) && Control(s.(ctxDone := true))
  {
  }

  lemma ControlKept(s: State, a: Action)
    requires Control(s) && Enabled(s, a)
    ensures Control(Next(s, a))
  {
    match a
    case CancelContext => ControlIgnores(s, s.log);
    case Exit(e) => ControlKeptByExit(s, e);
    case React(r) => ControlKeptByReactor(s, r);
    case Operate(o) => ControlKeptByOperation(s, o);
    case Call(c, p) => ControlKeptByCall(s, c, p);
    case Lock(x) => ControlKeptBySection(s, x);
    hide *;
    ControlIgnores(Update(s, a), s.log + Emit(s, a));
  }

  /** Nothing is done to the outcome: the reactor stays where it is, or in its
      loop. */
  predicate SameOutcome(s: State, t: State) {
    && t.cfg == s.cfg && t.branch == s.branch && (s.ctxDone ==> t.ctxDone)
    && (s.report.Some? ==> t.report == s.report)
    && (t.reactor == s.reactor || (InLoop(s.reactor) && InLoop(t.reactor)))
    && Outcome(t.shared.info) == Outcome(s.shared.info) && t.shared.err == s.shared.err
  }

  lemma SameOutcomeByOperation(s: State, o: Operation)
    requires OperationEnabled(s, o)
    ensures SameOutcome(s, OperationUpdate(s, o))
  {
    StaysInLoop(s, o);
    hide OperationEnabled, Replies, ReactorAfter;
  }

  lemma SameOutcomeByCall(s: State, c: nat, p: CallStep)
    requires CallEnabled(s, c, p)
    ensures SameOutcome(s, CallUpdate(s, c, p))
  {
    assert p.Offer? ==> s.reactor.Loop?;
    hide CallEnabled, ClientAfter;
  }

  lemma SameOutcomeByExit(s: State, e: ExitStep)
    requires Control(s) && ExitEnabled(s, e)
    ensures SameOutcome(s, ExitUpdate(s, e))
  {
  }

  lemma SameOutcomeBySection(s: State, x: Section)
    ensures SameOutcome(s, s.(shared := SectionUpdate(s.shared, x)))
  {
  }

  /** Only the reactor's own steps work on the outcome. */
  lemma OthersKeepOutcome(s: State, a: Action)
    requires Control(s) && Enabled(s, a) && !a.React?
    ensures SameOutcome(s, Next(s, a))
  {
    match a
    case CancelContext =>
    case Exit(e) => SameOutcomeByExit(s, e);
    case Operate(o) => SameOutcomeByOperation(s, o);
    case Call(c, p) => SameOutcomeByCall(s, c, p);
    case Lock(x) => SameOutcomeBySection(s, x);
    hide Control, Emit, ExitUpdate, OperationUpdate, CallUpdate, SectionUpdate;
  }

  lemma OutcomeKeptByReactor(s: State, r: ReactorStep)
    requires Control(s) && OutcomeInv(s) && ReactorEnabled(s, r)
    ensures OutcomeInv(ReactorUpdate(s, r))
  {
  }

  lemma OutcomeFrame(s: State, t: State)
    requires Control(s) && OutcomeInv(s) && SameOutcome(s, t)
    ensures OutcomeInv(t)
  {
    assert t.shared.info == s.shared.info.(tagList := t.shared.info.tagList);
  }

  lemma OutcomeKept(s: State, a: Action)
    requires Control(s) && OutcomeInv(s) && Enabled(s, a)
    ensures OutcomeInv(Next(s, a))
  {
    if a.React? {
      ReactorOutcome(s, a.reactorStep);
    } else {
      OthersKeepOutcome(s, a);
      hide Next, Enabled;
      OutcomeFrame(s, Next(s, a));
    }
  }

  lemma ReactorOutcome(s: State, r: ReactorStep)
    requires Control(s) && OutcomeInv(s) && ReactorEnabled(s, r)
    ensures OutcomeInv(Next(s, React(r)))
  {
    OutcomeKeptByReactor(s, r);
    ControlKeptByReactor(s, r);
    hide Control, OutcomeInv, ReactorUpdate, ReactorEmit, ReactorEnabled;
    OutcomeFrame(ReactorUpdate(s, r), Next(s, React(r)));
  }

  /** Which of the events that `Facts` looks at an action emits. */
  lemma FactsEmitted(s: State, a: Action)
    requires Enabled(s, a)
    ensures WaitReturn in Emit(s, a) <==> a.Exit? && a.exitStep.WaitReturns?
    ensures CloseCall in Emit(s, a) <==> a == React(CloseExecutor)
    ensures Published in Emit(s, a) <==> a == React(SetInfo)
  {
    if a == React(RunTriggers) {
      RanAllIs(s.shared.triggers, s.reactor.info.closers, WaitReturn);
      RanAllIs(s.shared.triggers, s.reactor.info.closers, CloseCall);
      RanAllIs(s.shared.triggers, s.reactor.info.closers, Published);
    }
  }

  /** What an action does to what `Facts` looks at. */
  lemma FactsChanged(s: State, a: Action)
    requires Control(s) && Enabled(s, a)
    ensures Update(s, a).report.Some? <==> s.report.Some? || (a.Exit? && a.exitStep.WaitReturns?)
    ensures Update(s, a).reactor.Exited? <==> s.reactor.Exited? || a == React(CloseExecutor)
    ensures Unpublished(Update(s, a).reactor) <==> Unpublished(s.reactor) && a != React(SetInfo)
  {
    if a.Operate? {
      StaysInLoop(s, a.operation);
      hide OperationEnabled, Replies, ReactorAfter;
    } else if a.Call? {
      assert a.callStep.Offer? ==> s.reactor.Loop?;
      hide CallEnabled, ClientAfter;
    }
    hide SectionUpdate;
  }

  lemma FactsKept(s: State, a: Action)
    requires Control(s) && Facts(s) && Enabled(s, a)
    ensures Facts(Next(s, a))
  {
    FactsEmitted(s, a);
    FactsChanged(s, a);
    hide Control, Enabled, Emit, Update, Unpublished;
  }

  /** Only operations of the reactor start operations. */
  lemma StartedBy(s: State, a: Action, c: nat)
    requires Enabled(s, a)
    ensures OperationStarted(c) in Emit(s, a) <==> a.Operate? && s.reactor.RunOp? && c == s.reactor.client
  {
    if a.Operate? && s.reactor.RunOp? {
      assert Emit(s, a)[0] == OperationStarted(s.reactor.client);
    } else if a.React? {
      NotStartedByReactor(s, a.reactorStep, c);
    }
  }

  lemma NotStartedByReactor(s: State, r: ReactorStep, c: nat)
    requires ReactorEnabled(s, r)
    ensures OperationStarted(c) !in ReactorEmit(s, r)
  {
    if r.RunTriggers? {
      RanAllIs(s.shared.triggers, s.reactor.info.closers, OperationStarted(c));
    }
  }

  lemma ReactorKeepsPublished(s: State, r: ReactorStep)
    requires Control(s) && s.shared.info.complete && ReactorEnabled(s, r)
    ensures var t := ReactorUpdate(s, r);
            t.shared.info.complete && Outcome(t.shared.info) == Outcome(s.shared.info) && t.shared.err == s.shared.err
  {
  }

  lemma OutcomeKeptOnceComplete(s: State, a: Action)
    requires Control(s) && s.shared.info.complete && Enabled(s, a)
    ensures var t := Next(s, a);
            t.shared.info.complete && Outcome(t.shared.info) == Outcome(s.shared.info) && t.shared.err == s.shared.err
  {
    if a.React? {
      ReactorKeepsPublished(s, a.reactorStep);
      hide Control, ReactorUpdate, ReactorEnabled, ReactorEmit;
    } else {
      OthersKeepOutcome(s, a);
      hide Control, Next, Enabled;
    }
  }

  // ----- clients

  /** Whether, and how far, the reactor serves this client. */
  predicate SameService(s: State, t: State, c: nat) {
    && (Serves(s.reactor, c) || Serves(t.reactor, c) ==> t.reactor == s.reactor)
    && s.log <= t.log
    && (OperationStarted(c) in s.log <==> OperationStarted(c) in t.log)
  }

  /** What `ClientOk` says of a client stays true as long as the reactor does
      nothing for the client and a published outcome stays. */
  lemma ClientFrame(s: State, t: State, c: nat, cl: Client)
    requires ClientOk(s, c, cl) && SameService(s, t, c)
    requires s.shared.info.complete ==>
               t.shared.info.complete && t.shared.info.exitCode == s.shared.info.exitCode && t.shared.err == s.shared.err
    ensures ClientOk(t, c, cl)
  {
  }

  lemma ReactorServesNobody(s: State, r: ReactorStep, c: nat)
    requires ReactorEnabled(s, r)
    ensures !Serves(s.reactor, c) && !Serves(ReactorUpdate(s, r).reactor, c)
  {
  }

  lemma ExitKeepsReactor(s: State, e: ExitStep)
    requires ExitEnabled(s, e)
    ensures ExitUpdate(s, e).reactor == s.reactor && ExitUpdate(s, e).clients == s.clients
  {
  }

  lemma ReactorKeepsClients(s: State, r: ReactorStep)
    requires ReactorEnabled(s, r)
    ensures ReactorUpdate(s, r).clients == s.clients
  {
  }

  /** The actions that are nobody's call and no operation. */
  lemma SameServiceByReactor(s: State, a: Action, c: nat)
    requires Enabled(s, a) && !a.Operate? && !a.Call?
    ensures SameService(s, Next(s, a), c) && Next(s, a).clients == s.clients
  {
    StartedBy(s, a, c);
    if a.React? {
      ReactorServesNobody(s, a.reactorStep, c);
      ReactorKeepsClients(s, a.reactorStep);
    } else if a.Exit? {
      ExitKeepsReactor(s, a.exitStep);
    }
    hide Emit, ReactorUpdate, ReactorEnabled, ExitUpdate, ExitEnabled, SectionUpdate;
  }

  lemma SameServiceByOperation(s: State, o: Operation, c: nat)
    requires OperationEnabled(s, o) && c != s.reactor.client
    ensures SameService(s, Next(s, Operate(o)), c)
    ensures c in s.clients ==> c in Next(s, Operate(o)).clients && Next(s, Operate(o)).clients[c] == s.clients[c]
  {
    StartedBy(s, Operate(o), c);
    assert !Serves(ReactorAfter(s, o), c);
    hide OperationEmit, ReactorAfter, OperationEnabled, Replies;
  }

  lemma SameServiceByCall(s: State, d: nat, p: CallStep, c: nat)
    requires CallEnabled(s, d, p) && c != d
    ensures SameService(s, Next(s, Call(d, p)), c)
    ensures c in s.clients ==> c in Next(s, Call(d, p)).clients && Next(s, Call(d, p)).clients[c] == s.clients[c]
  {
    StartedBy(s, Call(d, p), c);
    assert p.Offer? ==> s.reactor.Loop?;
    hide CallEmit, CallEnabled, ClientAfter;
  }

  /** An action that is neither the client's own nor done for it. */
  predicate Aside(s: State, a: Action, c: nat) {
    !(a.Operate? && Serves(s.reactor, c)) && !(a.Call? && a.client == c)
  }

  lemma AsideKeepsClient(s: State, a: Action, c: nat)
    requires Enabled(s, a) && Aside(s, a, c)
    ensures SameService(s, Next(s, a), c)
    ensures c in s.clients ==> c in Next(s, a).clients && Next(s, a).clients[c] == s.clients[c]
  {
    if a.Operate? {
      SameServiceByOperation(s, a.operation, c);
    } else if a.Call? {
      SameServiceByCall(s, a.client, a.callStep, c);
    } else {
      SameServiceByReactor(s, a, c);
    }
  }

  lemma OtherClientKept(s: State, a: Action, c: nat)
    requires Control(s) && ClientsOk(s) && Enabled(s, a) && Aside(s, a, c) && c in s.clients
    ensures ClientOk(Next(s, a), c, s.clients[c])
  {
    assert ClientOk(s, c, s.clients[c]);
    AsideKeepsClient(s, a, c);
    if s.shared.info.complete {
      OutcomeKeptOnceComplete(s, a);
    }
    hide Control, ClientsOk, Next, Enabled, ClientOk, SameService;
    ClientFrame(s, Next(s, a), c, s.clients[c]);
  }

  lemma ClientKeptByFirstStep(s: State, o: Operation)
    requires Control(s) && ClientsOk(s) && OperationEnabled(s, o) && s.reactor.RunOp?
    ensures ClientOk(Next(s, Operate(o)), s.reactor.client, Next(s, Operate(o)).clients[s.reactor.client])
  {
    var c := s.reactor.client;
    StartedBy(s, Operate(o), c);
    assert ClientOk(s, c, s.clients[c]);
    hide OperationEmit;
  }

  lemma ClientKeptByLaterStep(s: State, o: Operation)
    requires ClientsOk(s) && OperationEnabled(s, o) && !s.reactor.RunOp?
    ensures ClientOk(Next(s, Operate(o)), s.reactor.client, Next(s, Operate(o)).clients[s.reactor.client])
  {
    var c := s.reactor.client;
    StartedBy(s, Operate(o), c);
    assert ClientOk(s, c, s.clients[c]);
    hide OperationEmit;
  }

  lemma ClientKeptByOperation(s: State, o: Operation)
    requires Control(s) && ClientsOk(s) && OperationEnabled(s, o)
    ensures ClientOk(Next(s, Operate(o)), s.reactor.client, Next(s, Operate(o)).clients[s.reactor.client])
  {
    OperationKeepsDomain(s, o);
    if s.reactor.RunOp? {
      ClientKeptByFirstStep(s, o);
    } else {
      ClientKeptByLaterStep(s, o);
    }
    hide Control, ClientsOk, ClientOk, Next, OperationEnabled;
  }

  lemma ClientKeptOnEntry(s: State, c: nat, p: CallStep)
    requires Control(s) && ClientsOk(s) && CallEnabled(s, c, p) && (p.Begin? || p.Check? || p.Offer?)
    ensures ClientOk(Next(s, Call(c, p)), c, ClientAfter(s, c, p))
  {
    StartedBy(s, Call(c, p), c);
    if c in s.clients {
      assert ClientOk(s, c, s.clients[c]);
    } else {
      assert OperationStarted(c) !in s.log;
    }
    hide CallEmit;
  }

  lemma ClientKeptInSelect(s: State, c: nat, p: CallStep)
    requires Control(s) && ClientsOk(s) && CallEnabled(s, c, p) && (p.TakeReply? || p.OwnCancel? || p.SeeComplete?)
    ensures ClientOk(Next(s, Call(c, p)), c, ClientAfter(s, c, p))
  {
    StartedBy(s, Call(c, p), c);
    assert ClientOk(s, c, s.clients[c]);
    hide CallEmit;
  }

  lemma ClientKeptOnReturn(s: State, c: nat, p: CallStep)
    requires Control(s) && ClientsOk(s) && CallEnabled(s, c, p) && (p.ReadInfo? || p.ReadErr? || p.ReadCode?)
    ensures ClientOk(Next(s, Call(c, p)), c, ClientAfter(s, c, p))
  {
    StartedBy(s, Call(c, p), c);
    assert ClientOk(s, c, s.clients[c]);
    hide CallEmit;
  }

  lemma ClientKeptByCall(s: State, c: nat, p: CallStep)
    requires Control(s) && ClientsOk(s) && CallEnabled(s, c, p)
    ensures c in Next(s, Call(c, p)).clients
    ensures ClientOk(Next(s, Call(c, p)), c, Next(s, Call(c, p)).clients[c])
  {
    if p.Begin? || p.Check? || p.Offer? {
      ClientKeptOnEntry(s, c, p);
    } else if p.TakeReply? || p.OwnCancel? || p.SeeComplete? {
      ClientKeptInSelect(s, c, p);
    } else {
      ClientKeptOnReturn(s, c, p);
    }
    hide Control, ClientsOk, ClientOk, CallEnabled, CallEmit, ClientAfter;
  }

  lemma OperationKeepsDomain(s: State, o: Operation)
    requires OperationEnabled(s, o)
    ensures Next(s, Operate(o)).clients.Keys == s.clients.Keys && s.reactor.client in s.clients
  {
    hide OperationEmit, ReactorAfter, Replies;
  }

  /** The clients of the next state are those of this one, and a new caller. */
  lemma DomainKept(s: State, a: Action)
    requires Enabled(s, a)
    ensures Next(s, a).clients.Keys == s.clients.Keys + if a.Call? then {a.client} else {}
  {
    if a.Operate? {
      OperationKeepsDomain(s, a.operation);
    } else if !a.Call? {
      SameServiceByReactor(s, a, 0);
    }
    hide Emit, OperationUpdate, OperationEnabled, ReactorUpdate, ReactorEnabled, ExitUpdate, ClientAfter;
  }

  lemma ClientKept(s: State, a: Action, c: nat)
    requires Control(s) && ClientsOk(s) && Enabled(s, a) && c in Next(s, a).clients
    ensures ClientOk(Next(s, a), c, Next(s, a).clients[c])
  {
    DomainKept(s, a);
    if Aside(s, a, c) {
      AsideKeepsClient(s, a, c);
      OtherClientKept(s, a, c);
    } else if a.Operate? {
      ClientKeptByOperation(s, a.operation);
    } else {
      ClientKeptByCall(s, c, a.callStep);
    }
    hide Control, ClientsOk, ClientOk, Next, SameService;
  }

  /** The client that the reactor serves exists. */
  lemma ServedKept(s: State, a: Action, c: nat)
    requires ClientsOk(s) && Enabled(s, a) && Serves(Next(s, a).reactor, c)
    ensures c in Next(s, a).clients
  {
    DomainKept(s, a);
    if Aside(s, a, c) {
      AsideKeepsClient(s, a, c);
    }
    hide Next, Enabled;
  }

  lemma ClientsKept(s: State, a: Action)
    requires Control(s) && ClientsOk(s) && Enabled(s, a)
    ensures ClientsOk(Next(s, a))
  {
    var t := Next(s, a);
    forall c | c in t.clients ensures ClientOk(t, c, t.clients[c]) {
      ClientKept(s, a, c);
    }
    forall c | OperationStarted(c) in t.log ensures c in t.clients {
      StartedExists(s, a, c);
    }
    if t.reactor.RunOp? || t.reactor.Hooking? || t.reactor.Replying? {
      ServedKept(s, a, t.reactor.client);
    }
    hide Control, ClientOk, Next, Enabled;
  }

  lemma StartedExists(s: State, a: Action, c: nat)
    requires ClientsOk(s) && Enabled(s, a) && OperationStarted(c) in Next(s, a).log
    ensures c in Next(s, a).clients
  {
    StartedBy(s, a, c);
    DomainKept(s, a);
    if a.Operate? {
      OperationKeepsDomain(s, a.operation);
    }
    hide Emit, Update, Enabled;
  }

  /** A critical section does to the tags what its events say. */
  lemma TagsOfSection(sh: Shared, x: Section, e: Event)
    requires sh.tags == (set y | y in sh.info.tagList) && SectionEmit(sh, x) == [e]
    ensures var sh' := SectionUpdate(sh, x);
            && sh'.info.tagList == ReplayOne(sh.info.tagList, e)
            && sh'.tags == (set y | y in sh'.info.tagList)
  {
  }

  lemma TagsKeptBySection(s: State, x: Section)
    requires TagsOk(s)
    ensures TagsOk(s.(shared := SectionUpdate(s.shared, x), log := s.log + SectionEmit(s.shared, x)))
  {
    var evs := SectionEmit(s.shared, x);
    if evs == [] {
      assert s.log + evs == s.log;
    } else {
      TagsOfSection(s.shared, x, evs[0]);
      ReplaySnoc(s.initialTags, s.log, evs[0]);
    }
  }

  lemma TagsUntouchedByReactor(s: State, r: ReactorStep)
    requires ReactorEnabled(s, r)
    ensures var s' := ReactorUpdate(s, r);
            && s'.shared.tags == s.shared.tags
            && s'.shared.info.tagList == s.shared.info.tagList
            && s'.initialTags == s.initialTags
  {
  }

  lemma TagsUntouched(s: State, a: Action)
    requires Enabled(s, a) && !a.Lock?
    ensures var t := Update(s, a);
            && t.shared.tags == s.shared.tags
            && t.shared.info.tagList == s.shared.info.tagList
            && t.initialTags == s.initialTags
  {
    if a.React? {
      TagsUntouchedByReactor(s, a.reactorStep);
      hide ReactorUpdate;
    }
    hide ReactorAfter, Replies, ClientAfter;
  }

  lemma NoTagEvents(s: State, a: Action, e: Event)
    requires Enabled(s, a) && !a.Lock? && e in Emit(s, a)
    ensures !AboutTags(e)
  {
    if a == React(RunTriggers) {
      RanAllIs(s.shared.triggers, s.reactor.info.closers, e);
    }
  }

  lemma TagsKept(s: State, a: Action)
    requires TagsOk(s) && Enabled(s, a)
    ensures TagsOk(Next(s, a))
  {
    if a.Lock? {
      TagsKeptBySection(s, a.section);
    } else {
      TagsUntouched(s, a);
      forall e | e in Emit(s, a) ensures !AboutTags(e) {
        NoTagEvents(s, a, e);
      }
      ReplayIgnores(s.initialTags, s.log, Emit(s, a));
      hide Enabled, Update, Emit, AboutTags;
    }
  }

  // ----- one client's operation on a signal

  predicate OperatesFor(s: State, a: Action, c: nat) {
    a.Operate? && Serves(s.reactor, c)
  }

  /** Other actions add nothing to a client's service. */
  lemma NoServiceByReactor(s: State, r: ReactorStep, c: nat, e: Event)
    requires ReactorEnabled(s, r) && e in ReactorEmit(s, r)
    ensures ServiceOf(c)(e).None?
  {
    if r.RunTriggers? {
      RanAllIs(s.shared.triggers, s.reactor.info.closers, e);
    }
  }

  lemma NoServiceByOther(s: State, o: Operation, c: nat, e: Event)
    requires OperationEnabled(s, o) && s.reactor.client != c && e in OperationEmit(s, o)
    ensures ServiceOf(c)(e).None?
  {
  }

  lemma NoServiceBy(s: State, a: Action, c: nat, e: Event)
    requires Enabled(s, a) && !OperatesFor(s, a, c) && e in Emit(s, a)
    ensures ServiceOf(c)(e).None?
  {
    if a.React? {
      NoServiceByReactor(s, a.reactorStep, c, e);
    } else if a.Operate? {
      NoServiceByOther(s, a.operation, c, e);
    }
  }

  /** Stages of two states agree when what they depend on does. */
  lemma SameStage(s: State, t: State, c: nat)
    requires t.cfg == s.cfg && c in s.clients && c in t.clients
    requires t.clients[c].kind == s.clients[c].kind && t.clients[c].answer == s.clients[c].answer
    requires OperationStarted(c) in t.log <==> OperationStarted(c) in s.log
    requires t.reactor == s.reactor
             || (!(s.reactor.Hooking? && s.reactor.client == c) && !(t.reactor.Hooking? && t.reactor.client == c))
    ensures StageOf(t, c) == StageOf(s, c)
  {
  }

  /** Only a client's own calls touch its kind, and only steps of its operation
      make the reactor run its signal triggers or stop it. */
  lemma KindKept(s: State, a: Action, c: nat)
    requires Enabled(s, a) && c in s.clients
    ensures c in Next(s, a).clients && Next(s, a).clients[c].kind == s.clients[c].kind
  {
    if Aside(s, a, c) {
      AsideKeepsClient(s, a, c);
      hide Next, Enabled, SameService;
    } else if a.Operate? {
      hide OperationEmit, OperationEnabled, ReactorAfter, Replies;
    } else {
      hide CallEmit;
    }
  }

  lemma AnswerKept(s: State, a: Action, c: nat)
    requires Enabled(s, a) && c in s.clients && !OperatesFor(s, a, c)
    ensures c in Next(s, a).clients && Next(s, a).clients[c].answer == s.clients[c].answer
  {
    if Aside(s, a, c) {
      AsideKeepsClient(s, a, c);
      hide Next, Enabled, SameService;
    } else {
      hide CallEmit;
    }
  }

  lemma SameConfigByReactor(s: State, r: ReactorStep)
    requires ReactorEnabled(s, r)
    ensures var t := ReactorUpdate(s, r); t.cfg == s.cfg && t.initialTags == s.initialTags && t.closers == s.closers
  {
  }

  lemma SameConfig(s: State, a: Action)
    requires Enabled(s, a)
    ensures Next(s, a).cfg == s.cfg && Next(s, a).initialTags == s.initialTags && Next(s, a).closers == s.closers
  {
    if a.React? {
      SameConfigByReactor(s, a.reactorStep);
      hide ReactorUpdate, ReactorEnabled;
    }
    hide Emit, ReactorAfter, Replies, ClientAfter, SectionUpdate, OperationEnabled, CallEnabled;
  }

  lemma HookingKeptByReactor(s: State, r: ReactorStep)
    requires ReactorEnabled(s, r)
    ensures !s.reactor.Hooking? && !ReactorUpdate(s, r).reactor.Hooking?
  {
  }

  lemma HookingKeptByOther(s: State, o: Operation, c: nat)
    requires OperationEnabled(s, o) && s.reactor.client != c
    ensures OperationUpdate(s, o).reactor.Hooking? ==> OperationUpdate(s, o).reactor.client != c
  {
  }

  lemma HookingKept(s: State, a: Action, c: nat)
    requires Enabled(s, a) && !OperatesFor(s, a, c)
    ensures var r := Next(s, a).reactor;
            r == s.reactor || (!(s.reactor.Hooking? && s.reactor.client == c) && !(r.Hooking? && r.client == c))
  {
    if a.React? {
      HookingKeptByReactor(s, a.reactorStep);
    } else if a.Operate? {
      HookingKeptByOther(s, a.operation, c);
    }
  }

  lemma StageKeptByOthers(s: State, a: Action, c: nat)
    requires Enabled(s, a) && !OperatesFor(s, a, c) && (c !in s.clients ==> OperationStarted(c) !in s.log)
    requires OperationStarted(c) in Next(s, a).log <==> OperationStarted(c) in s.log
    ensures StageOf(Next(s, a), c) == StageOf(s, c) || (StageOf(s, c).Idle? && StageOf(Next(s, a), c).Plain?)
  {
    if c in s.clients {
      KindKept(s, a, c);
      AnswerKept(s, a, c);
      HookingKept(s, a, c);
      SameConfig(s, a);
      hide Enabled, Next, OperatesFor;
      SameStage(s, Next(s, a), c);
    } else {
      DomainKept(s, a);
      hide Enabled, Next, OperatesFor;
    }
  }

  lemma CallKeptByOthers(s: State, a: Action, c: nat)
    requires ClientsOk(s) && InStage(s.log, c, StageOf(s, c)) && Enabled(s, a) && !OperatesFor(s, a, c)
    ensures InStage(Next(s, a).log, c, StageOf(Next(s, a), c))
  {
    forall e | e in Emit(s, a) ensures ServiceOf(c)(e).None? {
      NoServiceBy(s, a, c, e);
    }
    StageKept(s.log, Emit(s, a), c, StageOf(s, c));
    StageKeptByOthers(s, a, c);
  }

  /** What a step of a client's own operation on a signal does to its stage. */
  lemma SignalStep(s: State, o: Operation)
    requires ClientsOk(s) && OperationEnabled(s, o) && s.clients[s.reactor.client].kind.KSignal?
    ensures var c := s.reactor.client;
            var sig := MakeCompatible(s.cfg.windows, s.clients[c].kind.sig);
            var before, after := StageOf(s, c), StageOf(Next(s, Operate(o)), c);
            match o
            case ReadHooks => before.Idle? && after == Underway(s.shared.signalTriggers, [])
            case RunHook(skip) =>
              before == Underway(s.reactor.hooks, s.reactor.verdicts)
              && after == Underway(s.reactor.hooks, s.reactor.verdicts + [skip])
            case SendSignal(fails) =>
              before == Underway(s.reactor.hooks, s.reactor.verdicts) && after == Over(sig, Some(fails))
            case SkipSignal => before == Underway(s.reactor.hooks, s.reactor.verdicts) && after == Over(sig, None)
            case _ => before == after && before.Over?
  {
    var c := s.reactor.client;
    assert ClientOk(s, c, s.clients[c]);
    StartedBy(s, Operate(o), c);
  }

  /** The same, told of histories and stages alone. */
  lemma StageAdvances(log: Log, c: nat, o: Operation, before: Stage, after: Stage, evs: Log)
    requires InStage(log, c, before)
    requires match o
      case ReadHooks => before.Idle? && after == Underway(Collect(log, HookOf), []) && evs == [OperationStarted(c)]
      case RunHook(skip) =>
        && before.Underway? && |before.verdicts| < |before.hooks|
        && after == Underway(before.hooks, before.verdicts + [skip])
        && evs == [SignalTriggerRan(c, before.hooks[|before.verdicts|], skip)]
      case SendSignal(_) =>
        && before.Underway? && |before.verdicts| == |before.hooks| && true !in before.verdicts
        && after.Over? && after.answer.Some? && evs == [SignalCall(c, after.sig, after.answer.value)]
      case SkipSignal =>
        && before.Underway? && |before.verdicts| == |before.hooks| && true in before.verdicts
        && after.Over? && after.answer.None? && evs == []
      case _ => before == after && evs == []
    ensures InStage(log + evs, c, after)
  {
    match o
    case ReadHooks => HooksAreRead(log, c);
    case RunHook(skip) => HookRuns(log, c, before.hooks, before.verdicts, skip);
    case SendSignal(_) => SignalGoesOut(log, c, before.hooks, before.verdicts, after.sig, after.answer.value);
    case SkipSignal =>
      SignalIsSkipped(log, c, before.hooks, before.verdicts, after.sig);
      assert log + [] == log;
    case _ => assert log + [] == log;
  }

  lemma CallKeptBySignal(s: State, o: Operation)
    requires ClientsOk(s) && OperationEnabled(s, o) && s.clients[s.reactor.client].kind.KSignal?
    requires Collect(s.log, HookOf) == s.shared.signalTriggers
    requires InStage(s.log, s.reactor.client, StageOf(s, s.reactor.client))
    ensures InStage(Next(s, Operate(o)).log, s.reactor.client, StageOf(Next(s, Operate(o)), s.reactor.client))
  {
    var c := s.reactor.client;
    SignalStep(s, o);
    StageAdvances(s.log, c, o, StageOf(s, c), StageOf(Next(s, Operate(o)), c), OperationEmit(s, o));
  }

  lemma PlainEvents(s: State, o: Operation)
    requires OperationEnabled(s, o) && (o.RunInfo? || o.RunRunning? || o.RunWait?)
    ensures var evs := OperationEmit(s, o);
            && evs == [OperationStarted(s.reactor.client)] + evs[1..]
            && forall e :: e in evs[1..] ==> ServiceOf(s.reactor.client)(e).None?
  {
  }

  lemma CallKeptByPlain(s: State, o: Operation)
    requires ClientsOk(s) && OperationEnabled(s, o) && !s.clients[s.reactor.client].kind.KSignal?
    requires InStage(s.log, s.reactor.client, StageOf(s, s.reactor.client))
    ensures InStage(Next(s, Operate(o)).log, s.reactor.client, StageOf(Next(s, Operate(o)), s.reactor.client))
  {
    hide OperationEmit, InStage;
    var c := s.reactor.client;
    assert s.reactor.RunOp? by {
      assert ClientOk(s, c, s.clients[c]);
    }
    PlainEvents(s, o);
    PlainStarts(s.log, c, OperationEmit(s, o)[1..]);
    KindKept(s, Operate(o), c);
  }

  lemma CallsKept(s: State, a: Action)
    requires ClientsOk(s) && CallsOk(s) && TriggersOk(s) && Enabled(s, a)
    ensures CallsOk(Next(s, a))
  {
    forall c ensures InStage(Next(s, a).log, c, StageOf(Next(s, a), c)) {
      if !OperatesFor(s, a, c) {
        CallKeptByOthers(s, a, c);
      } else if s.clients[c].kind.KSignal? {
        CallKeptBySignal(s, a.operation);
      } else {
        CallKeptByPlain(s, a.operation);
      }
    }
  }

  // ----- the history

  lemma LoopFacts(s: State)
    requires Control(s) && Facts(s) && InLoop(s.reactor)
    ensures Published !in s.log && CloseCall !in s.log && !s.shared.info.complete
  {
  }

  /** What an operation may add to a history. */
  lemma OperationEvents(s: State, o: Operation, i: nat)
    requires OperationEnabled(s, o) && !s.shared.info.complete && i < |OperationEmit(s, o)| && !o.SendSignal?
    ensures var e := OperationEmit(s, o)[i];
            e.OperationStarted? || e.SignalTriggerRan? || e.PidCall? || e == Observed(false)
    ensures Published !in OperationEmit(s, o) && CloseCall !in OperationEmit(s, o)
  {
  }

  lemma SendAdmissible(s: State, fails: bool)
    requires ClientsOk(s) && OperationEnabled(s, SendSignal(fails)) && Published !in s.log && CloseCall !in s.log
    requires InStage(s.log, s.reactor.client, StageOf(s, s.reactor.client))
    ensures Admissible(s.log, OperationEmit(s, SendSignal(fails))[0])
  {
    SignalStep(s, SendSignal(fails));
    SignalCallAdmissible(s.log, s.reactor.client, MakeCompatible(s.cfg.windows, s.clients[s.reactor.client].kind.sig),
                         fails, StageOf(s, s.reactor.client));
  }

  lemma OperationAdmissible(s: State, o: Operation, i: nat)
    requires Control(s) && Facts(s) && ClientsOk(s) && OperationEnabled(s, o) && i < |OperationEmit(s, o)|
    requires InStage(s.log, s.reactor.client, StageOf(s, s.reactor.client))
    ensures Admissible(s.log + OperationEmit(s, o)[..i], OperationEmit(s, o)[i])
  {
    assert Published !in s.log && CloseCall !in s.log && !s.shared.info.complete by {
      LoopFacts(s);
    }
    var evs := OperationEmit(s, o);
    if o.SendSignal? {
      assert s.log + evs[..i] == s.log;
      SendAdmissible(s, o.fails);
    } else {
      OperationEvents(s, o, i);
      QuietAdmissible(s.log + evs[..i], evs[i]);
    }
  }

  lemma TriggersAdmissible(s: State, i: nat)
    requires Control(s) && Facts(s) && Enabled(s, React(RunTriggers)) && i < |Emit(s, React(RunTriggers))|
    ensures Admissible(s.log + Emit(s, React(RunTriggers))[..i], Emit(s, React(RunTriggers))[i])
  {
    var evs := Emit(s, React(RunTriggers));
    RanAllIs(s.shared.triggers, s.reactor.info.closers, evs[i]);
    RanAllIs(s.shared.triggers, s.reactor.info.closers, Published);
    RanAllIs(s.shared.triggers, s.reactor.info.closers, CloseCall);
  }

  lemma ReactorAdmissible(s: State, r: ReactorStep, i: nat)
    requires Control(s) && Facts(s) && ReactorEnabled(s, r) && i < |ReactorEmit(s, r)| && !r.RunTriggers?
    ensures Admissible(s.log + ReactorEmit(s, r)[..i], ReactorEmit(s, r)[i])
  {
    assert Published !in ReactorEmit(s, r)[..i] && CloseCall !in ReactorEmit(s, r)[..i];
  }

  lemma CallAdmissible(s: State, c: nat, p: CallStep, i: nat)
    requires Control(s) && Facts(s) && ClientsOk(s) && CallEnabled(s, c, p) && i < |CallEmit(s, c, p)|
    ensures Admissible(s.log + CallEmit(s, c, p)[..i], CallEmit(s, c, p)[i])
  {
    assert s.log + CallEmit(s, c, p)[..i] == s.log;
    if p.ReadErr? || p.ReadCode? {
      assert ClientOk(s, c, s.clients[c]);
    }
  }

  lemma StepAdmissible(s: State, a: Action, i: nat)
    requires Control(s) && Facts(s) && ClientsOk(s) && Enabled(s, a) && i < |Emit(s, a)|
    requires !a.Operate? && a != React(RunTriggers)
    ensures Admissible(s.log + Emit(s, a)[..i], Emit(s, a)[i])
  {
    if a.React? {
      ReactorAdmissible(s, a.reactorStep, i);
      hide Admissible, Control, ClientsOk, ReactorEmit, ReactorEnabled;
    } else if a.Call? {
      CallAdmissible(s, a.client, a.callStep, i);
      hide Admissible, Control, ClientsOk, CallEmit, CallEnabled;
    } else {
      hide ClientsOk;
      assert s.log + Emit(s, a)[..i] == s.log;
    }
  }

  lemma HistoryKept(s: State, a: Action)
    requires Control(s) && Facts(s) && ClientsOk(s) && CallsOk(s) && Always(s.log, Admissible) && Enabled(s, a)
    ensures Always(Next(s, a).log, Admissible)
  {
    forall i | 0 <= i < |Emit(s, a)| ensures Admissible(s.log + Emit(s, a)[..i], Emit(s, a)[i]) {
      if a.Operate? {
        assert InStage(s.log, s.reactor.client, StageOf(s, s.reactor.client));
        OperationAdmissible(s, a.operation, i);
      } else if a == React(RunTriggers) {
        TriggersAdmissible(s, i);
      } else {
        StepAdmissible(s, a, i);
      }
    }
    AlwaysConcat(s.log, Emit(s, a), Admissible);
  }

  predicate Registers(a: Action) {
    a.Lock? && a.section.RegisteringTrigger?
  }

  predicate RegistersHook(a: Action) {
    a.Lock? && a.section.RegisteringSignalTrigger?
  }

  /** What an action adds to the collected registrations and runs. */
  lemma AcceptedBy(s: State, a: Action)
    requires Enabled(s, a)
    ensures Collect(Emit(s, a), AcceptedOf) ==
            if Registers(a) && !s.shared.info.complete then [a.section.trigger] else []
  {
    if !Registers(a) {
      forall e | e in Emit(s, a) ensures AcceptedOf(e).None? {
        if a == React(RunTriggers) {
          RanAllIs(s.shared.triggers, s.reactor.info.closers, e);
        }
      }
      CollectNothing(Emit(s, a), AcceptedOf);
    }
  }

  lemma HooksBy(s: State, a: Action)
    requires Enabled(s, a)
    ensures Collect(Emit(s, a), HookOf) ==
            if RegistersHook(a) && !s.shared.info.complete then [a.section.hook] else []
  {
    if !RegistersHook(a) {
      forall e | e in Emit(s, a) ensures HookOf(e).None? {
        if a == React(RunTriggers) {
          RanAllIs(s.shared.triggers, s.reactor.info.closers, e);
        }
      }
      CollectNothing(Emit(s, a), HookOf);
    }
  }

  lemma RunsBy(s: State, a: Action)
    requires Enabled(s, a)
    ensures Collect(Emit(s, a), RanOf) == if a == React(RunTriggers) then s.shared.triggers else []
    ensures Collect(Emit(s, a), CloserOf) ==
            if a == React(RunTriggers) then ClosersCalled(s.shared.triggers, s.reactor.info.closers) else []
  {
    if a == React(RunTriggers) {
      CollectRanAll(s.shared.triggers, s.reactor.info.closers);
    } else {
      CollectNothing(Emit(s, a), RanOf);
      CollectNothing(Emit(s, a), CloserOf);
    }
  }

  /** How an action changes the registered triggers. */
  lemma RegisteredByReactor(s: State, r: ReactorStep)
    requires ReactorEnabled(s, r)
    ensures ReactorUpdate(s, r).shared.triggers == s.shared.triggers
    ensures ReactorUpdate(s, r).shared.signalTriggers == s.shared.signalTriggers
  {
  }

  lemma RegisteredBy(s: State, a: Action)
    requires Enabled(s, a)
    ensures Next(s, a).shared.triggers == s.shared.triggers
              + (if Registers(a) && !s.shared.info.complete then [a.section.trigger] else [])
    ensures Next(s, a).shared.signalTriggers == s.shared.signalTriggers
              + (if RegistersHook(a) && !s.shared.info.complete then [a.section.hook] else [])
  {
    if a.React? {
      RegisteredByReactor(s, a.reactorStep);
    }
  }

  /** The trigger step is taken once, and marks its place in the history. */
  lemma TriggerStepOfReactor(s: State, r: ReactorStep)
    requires ReactorEnabled(s, r)
    ensures ReactorUpdate(s, r).cut == if r.RunTriggers? then |s.log| else s.cut
    ensures BeforeTriggers(ReactorUpdate(s, r).reactor) <==> BeforeTriggers(s.reactor) && !r.RunTriggers?
    ensures r.RunTriggers? ==> BeforeTriggers(s.reactor)
  {
  }

  lemma TriggerStep(s: State, a: Action)
    requires Enabled(s, a)
    ensures Next(s, a).cut == if a == React(RunTriggers) then |s.log| else s.cut
    ensures BeforeTriggers(Next(s, a).reactor) <==> BeforeTriggers(s.reactor) && a != React(RunTriggers)
    ensures a == React(RunTriggers) ==> BeforeTriggers(s.reactor)
  {
    if a.React? {
      TriggerStepOfReactor(s, a.reactorStep);
    }
  }

  lemma RegistrationsKept(s: State, a: Action)
    requires Control(s) && TriggersOk(s) && Enabled(s, a)
    ensures Collect(Next(s, a).log, AcceptedOf) == Next(s, a).shared.triggers
    ensures Collect(Next(s, a).log, HookOf) == Next(s, a).shared.signalTriggers
  {
    AcceptedBy(s, a);
    HooksBy(s, a);
    RegisteredBy(s, a);
    CollectConcat(s.log, Emit(s, a), AcceptedOf);
    CollectConcat(s.log, Emit(s, a), HookOf);
  }

  /** How the triggers that ran grow: by nothing, or once, by all that were
      registered. */
  lemma RunsConcat(log: Log, evs: Log, pending: bool, cut: nat, step: bool)
    requires cut <= |log| && (step ==> pending)
    requires Collect(log, RanOf) == if pending then [] else Collect(log[..cut], AcceptedOf)
    requires Collect(evs, RanOf) == if step then Collect(log, AcceptedOf) else []
    ensures Collect(log + evs, RanOf) ==
            if step then Collect((log + evs)[..|log|], AcceptedOf)
            else if pending then [] else Collect((log + evs)[..cut], AcceptedOf)
  {
    CollectConcat(log, evs, RanOf);
    assert (log + evs)[..|log|] == log;
    assert (log + evs)[..cut] == log[..cut];
  }

  lemma RunsKept(s: State, a: Action)
    requires TriggersOk(s) && Enabled(s, a)
    ensures var s' := Next(s, a);
            && s'.cut <= |s'.log|
            && Collect(s'.log, RanOf) ==
               (if BeforeTriggers(s'.reactor) then [] else Collect(s'.log[..s'.cut], AcceptedOf))
  {
    RunsBy(s, a);
    TriggerStep(s, a);
    RunsConcat(s.log, Emit(s, a), BeforeTriggers(s.reactor), s.cut, a == React(RunTriggers));
  }

  lemma ClosersConcat(log: Log, evs: Log, pending: bool, step: bool, triggers: seq<Trigger>, closers: seq<nat>)
    requires step ==> pending
    requires |triggers| > 0 && triggers[0] == OptionsClose && forall i :: 1 <= i < |triggers| ==> triggers[i].User?
    requires Collect(log, CloserOf) == if pending then [] else closers
    requires Collect(evs, CloserOf) == if step then ClosersCalled(triggers, closers) else []
    ensures Collect(log + evs, CloserOf) == if pending && !step then [] else closers
  {
    CollectConcat(log, evs, CloserOf);
    CalledOnce(triggers, closers);
  }

  lemma ToldClosers(s: State)
    requires Control(s) && Enabled(s, React(RunTriggers))
    ensures s.reactor.info.closers == s.closers
  {
  }

  lemma ClosersKept(s: State, a: Action)
    requires Control(s) && TriggersOk(s) && CloseTriggerOk(s) && Enabled(s, a)
    ensures Collect(Next(s, a).log, CloserOf) ==
            if BeforeTriggers(Next(s, a).reactor) then [] else Next(s, a).closers
  {
    hide Control, Enabled, Emit, Update, AcceptedOf, HookOf, RanOf, Collect, ClosersCalled, BeforeTriggers;
    RunsBy(s, a);
    TriggerStep(s, a);
    SameConfig(s, a);
    if a == React(RunTriggers) {
      ToldClosers(s);
    }
    ClosersConcat(s.log, Emit(s, a), BeforeTriggers(s.reactor), a == React(RunTriggers), s.shared.triggers, s.closers);
  }

  lemma TriggersKept(s: State, a: Action)
    requires Control(s) && TriggersOk(s) && CloseTriggerOk(s) && Enabled(s, a)
    ensures TriggersOk(Next(s, a))
  {
    RegistrationsKept(s, a);
    RunsKept(s, a);
    ClosersKept(s, a);
  }

  lemma CloseTriggerKept(s: State, a: Action)
    requires CloseTriggerOk(s) && Enabled(s, a)
    ensures CloseTriggerOk(Next(s, a))
  {
    RegisteredBy(s, a);
    TriggerStep(s, a);
    assert Next(s, a).log[0] == s.log[0];
  }

  lemma InfoKept(s: State, a: Action, info: Info)
    requires Control(s) && Enabled(s, a) && InfoFits(s, info)
    ensures InfoFits(Next(s, a), info)
  {
    if info.complete {
      OutcomeKeptOnceComplete(s, a);
    }
  }

  lemma InfoOfOther(s: State, a: Action, cl: Client)
    requires Control(s) && Enabled(s, a) && InfoOk(s, cl)
    ensures InfoOk(Next(s, a), cl)
  {
    if cl.out != [] && cl.out[0].InfoReply? {
      InfoKept(s, a, cl.out[0].info);
    }
    if cl.pc.Done? && cl.pc.result.InfoResult? {
      InfoKept(s, a, cl.pc.result.info);
    }
  }

  lemma InfoOfCaller(s: State, c: nat, p: CallStep)
    requires Control(s) && ClientsOk(s) && InfosOk(s) && CallEnabled(s, c, p)
    ensures InfoOk(s, ClientAfter(s, c, p))
  {
    if !p.Begin? {
      assert InfoOk(s, s.clients[c]) && ClientOk(s, c, s.clients[c]);
    }
  }

  lemma InfoOfOperated(s: State, o: Operation)
    requires Control(s) && ClientsOk(s) && InfosOk(s) && OperationEnabled(s, o)
    ensures s.reactor.client in OperationUpdate(s, o).clients
    ensures InfoOk(s, OperationUpdate(s, o).clients[s.reactor.client])
  {
    var c := s.reactor.client;
    assert InfoOk(s, s.clients[c]) && ClientOk(s, c, s.clients[c]);
  }

  lemma InfosKept(s: State, a: Action)
    requires Control(s) && ClientsOk(s) && InfosOk(s) && Enabled(s, a)
    ensures InfosOk(Next(s, a))
  {
    forall c | c in Next(s, a).clients ensures InfoOk(Next(s, a), Next(s, a).clients[c]) {
      InfoOfNext(s, a, c);
      InfoOfOther(s, a, Next(s, a).clients[c]);
    }
    hide Control, Next, Enabled, ClientsOk, InfoOk;
  }

  /** A client's new information, against the state before. */
  lemma InfoOfNext(s: State, a: Action, c: nat)
    requires Control(s) && ClientsOk(s) && InfosOk(s) && Enabled(s, a) && c in Next(s, a).clients
    ensures InfoOk(s, Next(s, a).clients[c])
  {
    DomainKept(s, a);
    if Aside(s, a, c) {
      AsideKeepsClient(s, a, c);
      hide Next, ClientsOk, InfoOk, SameService, Aside;
    } else if a.Operate? {
      InfoOfOperated(s, a.operation);
      hide ClientsOk, InfoOk, OperationUpdate, OperationEmit, InfosOk;
    } else {
      InfoOfCaller(s, c, a.callStep);
      hide ClientsOk, InfoOk, ClientAfter, CallEmit, InfosOk;
    }
  }

  lemma InvKept(s: State, a: Action)
    requires Inv(s) && Enabled(s, a)
    ensures Inv(Next(s, a))
  {
    ControlKept(s, a);
    OutcomeKept(s, a);
    FactsKept(s, a);
    ClientsKept(s, a);
    CallsKept(s, a);
    InfosKept(s, a);
    HistoryKept(s, a);
    TriggersKept(s, a);
    CloseTriggerKept(s, a);
    TagsKept(s, a);
  }

  lemma HistoryInit(s: State)
    requires s == Init(s.cfg, s.initialTags, s.closers)
    ensures Always(s.log, Admissible) && TriggersOk(s) && CloseTriggerOk(s)
  {
    assert s.log[..0] == [];
    assert Collect(s.log, AcceptedOf) == [OptionsClose];
    CollectNothing(s.log, HookOf);
    CollectNothing(s.log, RanOf);
    CollectNothing(s.log, CloserOf);
  }

  lemma CallsInit(s: State)
    requires s == Init(s.cfg, s.initialTags, s.closers)
    ensures CallsOk(s)
  {
    forall c ensures InStage(s.log, c, StageOf(s, c)) {
      CollectNothing(s.log, ServiceOf(c));
    }
  }

  lemma TagsInit(s: State)
    requires s == Init(s.cfg, s.initialTags, s.closers)
    ensures TagsOk(s)
  {
    ReplayIgnores(s.initialTags, [], s.log);
    assert [] + s.log == s.log;
  }

  lemma ControlInit(s: State)
    requires s == Init(s.cfg, s.initialTags, s.closers)
    ensures Control(s) && OutcomeInv(s) && Facts(s) && ClientsOk(s) && InfosOk(s)
  {
    hide OutcomeFits, ClientOk, InfoOk;
  }

  lemma InvInit(cfg: Config, tags: seq<string>, closers: seq<nat>)
    ensures Inv(Init(cfg, tags, closers))
  {
    var s := Init(cfg, tags, closers);
    ControlInit(s);
    HistoryInit(s);
    CallsInit(s);
    TagsInit(s);
    hide Control, OutcomeInv, Facts, ClientsOk, InfosOk, Always, TriggersOk, CloseTriggerOk, CallsOk, TagsOk;
  }

  lemma {:induction false} InvRun(s: State, acts: seq<Action>)
    requires Inv(s) && IsRun(s, acts)
    ensures Inv(After(s, acts))
    decreases |acts|
  {
    if acts != [] {
      InvKept(s, acts[0]);
      InvRun(Next(s, acts[0]), acts[1..]);
    }
  }

  // ----- what the invariants mean

  /** Some run of a process with these options ends in `s`. */
  ghost predicate Reachable(s: State) {
    exists acts :: IsRun(Init(s.cfg, s.initialTags, s.closers), acts) && After(Init(s.cfg, s.initialTags, s.closers), acts) == s
  }

  lemma ReachableInv(s: State)
    requires Reachable(s)
    ensures Inv(s)
  {
    var acts :| IsRun(Init(s.cfg, s.initialTags, s.closers), acts) && After(Init(s.cfg, s.initialTags, s.closers), acts) == s;
    InvInit(s.cfg, s.initialTags, s.closers);
    InvRun(Init(s.cfg, s.initialTags, s.closers), acts);
  }

  /** Once `Complete` is visible it stays so, and the error, exit code, success
      and timeout never change again, whatever runs afterwards. */
  lemma {:induction false} OutcomeFrozen(s: State, acts: seq<Action>)
    requires Control(s) && s.shared.info.complete && IsRun(s, acts)
    ensures var t := After(s, acts);
            && t.shared.info.complete
            && Outcome(t.shared.info) == Outcome(s.shared.info)
            && t.shared.err == s.shared.err
    decreases |acts|
  {
    if acts != [] {
      ControlKept(s, acts[0]);
      OutcomeKeptOnceComplete(s, acts[0]);
      OutcomeFrozen(Next(s, acts[0]), acts[1..]);
    }
  }

  /** The reactor has taken its copy of the information, dated `now`. */
  predicate Dated(s: State, now: int) {
    && (CarriesInfo(s.reactor) || !Unpublished(s.reactor))
    && (CarriesInfo(s.reactor) ==> s.reactor.info.endAt == now)
    && (s.shared.info.complete ==> s.shared.info.endAt == now)
  }

  lemma DatedByReactor(s: State, r: ReactorStep, now: int)
    requires Control(s) && Dated(s, now) && ReactorEnabled(s, r)
    ensures Dated(ReactorUpdate(s, r), now)
  {
  }

  lemma DatedKept(s: State, a: Action, now: int)
    requires Control(s) && Dated(s, now) && Enabled(s, a)
    ensures Dated(Next(s, a), now)
  {
    if a.React? {
      DatedByReactor(s, a.reactorStep, now);
      hide Control, ReactorUpdate, ReactorEnabled, ReactorEmit;
    } else {
      OthersKeepOutcome(s, a);
      hide Control, Next, Enabled;
    }
  }

  lemma {:induction false} DatedRun(s: State, acts: seq<Action>, now: int)
    requires Control(s) && Dated(s, now) && IsRun(s, acts)
    ensures Dated(After(s, acts), now)
    decreases |acts|
  {
    if acts != [] {
      hide Control, Dated, Next, Enabled;
      ControlKept(s, acts[0]);
      DatedKept(s, acts[0], now);
      DatedRun(Next(s, acts[0]), acts[1..], now);
    }
  }

  /** The published end time is the time at which the reactor took its copy of the
      information, whatever runs in between. */
  lemma EndTime(s: State, now: int, acts: seq<Action>)
    requires Reachable(s) && Enabled(s, React(Snapshot(now))) && IsRun(Next(s, React(Snapshot(now))), acts)
    ensures var t := After(Next(s, React(Snapshot(now))), acts);
            t.shared.info.complete ==> t.shared.info.endAt == now
  {
    ReachableInv(s);
    ControlKept(s, React(Snapshot(now)));
    hide OutcomeInv, Facts, ClientsOk, CallsOk, InfosOk, TriggersOk, CloseTriggerOk, TagsOk, ReactorEmit;
    DatedRun(Next(s, React(Snapshot(now))), acts, now);
  }

  /** Any two `Wait` calls that their own contexts did not cancel return the
      same exit code and error: those of the published outcome.  Off the context's
      branch, the code is the number of the signal that ended the process, or else
      the exit code that the executor reported. */
  lemma WaitsAgree(s: State, c: nat, d: nat)
    requires Reachable(s) && c in s.clients && d in s.clients
    requires s.clients[c].pc.Done? && s.clients[c].pc.result.WaitResult?
    requires s.clients[d].pc.Done? && s.clients[d].pc.result.WaitResult?
    ensures s.shared.info.complete
    ensures s.clients[c].pc.result == s.clients[d].pc.result == WaitResult(s.shared.info.exitCode, s.shared.err)
    ensures s.branch != Some(ByContext) ==>
              && s.report.Some?
              && var code := s.clients[c].pc.result.code;
              && (s.report.value.signal.Some? ==> code == s.report.value.signal.value)
              && (s.report.value.signal.None? ==> code == s.report.value.exitCode)
  {
    hide Reachable;
    WaitReturned(s, c);
    WaitReturned(s, d);
    if s.branch != Some(ByContext) {
      PublishedCode(s);
    }
  }

  lemma PublishedCode(s: State)
    requires Reachable(s) && s.shared.info.complete && s.branch != Some(ByContext)
    ensures s.report.Some?
    ensures s.report.value.signal.Some? ==> s.shared.info.exitCode == s.report.value.signal.value
    ensures s.report.value.signal.None? ==> s.shared.info.exitCode == s.report.value.exitCode
  {
    hide Reachable, ReportedTimeout;
    PublishedOutcome(s);
  }

  lemma WaitReturned(s: State, c: nat)
    requires Reachable(s) && c in s.clients && s.clients[c].pc.Done? && s.clients[c].pc.result.WaitResult?
    ensures s.shared.info.complete
    ensures s.clients[c].pc.result == WaitResult(s.shared.info.exitCode, s.shared.err)
  {
    ReachableInv(s);
    assert ClientOk(s, c, s.clients[c]);
  }

  /** An `Info` call that reports completion reports the final outcome, and any other
      reports a running process without an outcome. */
  lemma CompleteInfoIsFinal(s: State, c: nat)
    requires Reachable(s) && c in s.clients && s.clients[c].pc.Done? && s.clients[c].pc.result.InfoResult?
    ensures var info := s.clients[c].pc.result.info;
            && (info.complete ==> s.shared.info.complete && Outcome(info) == Outcome(s.shared.info))
            && (!info.complete ==> info.isRunning && !info.successful && !info.timeout && info.exitCode == 0)
  {
    ReachableInv(s);
    assert InfoOk(s, s.clients[c]);
  }

  /** What a `Running` call returns, by the step with which it ends: with a reply from
      the reactor, whether the executor's process id was positive when it was asked;
      without one, whether the process is still to be completed. */
  lemma RunningAnswers(s: State, c: nat, p: CallStep)
    requires Reachable(s) && CallEnabled(s, c, p) && !p.Begin? && s.clients[c].kind.KRunning?
    ensures p.Check? ==> PcAfter(s, c, p) == if s.shared.info.complete then Done(RunningResult(false)) else Offering
    ensures p.TakeReply? ==>
              exists positive :: PcAfter(s, c, p) == Done(RunningResult(positive)) && PidCall(c, positive) in s.log
    ensures p.OwnCancel? || p.SeeComplete? ==> PcAfter(s, c, p) == ReadingInfo
    ensures p.ReadInfo? ==> PcAfter(s, c, p) == Done(RunningResult(!s.shared.info.complete))
    ensures !p.ReadErr? && !p.ReadCode?
  {
    ReachableInv(s);
    RunningStates(s, c);
    RunningSteps(s, c, p);
    hide Inv, Reachable, Next;
  }

  /** Where an `Info` call goes by its steps; what it returns is told by
      `CompleteInfoIsFinal`. */
  lemma InfoAnswers(s: State, c: nat, p: CallStep)
    requires Reachable(s) && CallEnabled(s, c, p) && !p.Begin? && s.clients[c].kind.KInfo?
    ensures p.Check? ==> PcAfter(s, c, p) == if s.shared.info.complete then ReadingInfo else Offering
    ensures p.TakeReply? ==> PcAfter(s, c, p).Done? && PcAfter(s, c, p).result.InfoResult?
    ensures p.OwnCancel? || p.SeeComplete? ==> PcAfter(s, c, p) == ReadingInfo
    ensures p.ReadInfo? ==> PcAfter(s, c, p) == Done(InfoResult(s.shared.info))
    ensures !p.ReadErr? && !p.ReadCode?
  {
    InfoStates(s, c);
    hide CallEmit, Reachable;
  }

  lemma InfoStates(s: State, c: nat)
    requires Reachable(s) && c in s.clients && s.clients[c].kind.KInfo?
    ensures !s.clients[c].pc.ReadingErr? && !s.clients[c].pc.ReadingCode?
    ensures s.clients[c].out != [] ==> s.clients[c].out[0].InfoReply?
  {
    ReachableInv(s);
    assert ClientOk(s, c, s.clients[c]);
  }

  /** Where a `Wait` call goes by its steps: it reads the outcome as soon as it sees
      completion, and without that ends only if its own context does.  It never gets
      a reply, because no operation runs once the process is complete. */
  lemma WaitAnswers(s: State, c: nat, p: CallStep)
    requires Reachable(s) && CallEnabled(s, c, p) && !p.Begin? && s.clients[c].kind.KWait?
    ensures p.Check? ==> PcAfter(s, c, p) == if s.shared.info.complete then ReadingInfo else Offering
    ensures p.Offer? ==> PcAfter(s, c, p) == Offering
    ensures p.OwnCancel? ==> PcAfter(s, c, p) == Done(WaitCancelled)
    ensures p.SeeComplete? ==> PcAfter(s, c, p) == ReadingInfo
    ensures p.ReadInfo? ==> PcAfter(s, c, p) == ReadingErr(s.shared.info.exitCode)
    ensures p.ReadErr? ==> PcAfter(s, c, p) == Done(WaitResult(s.shared.info.exitCode, s.shared.err))
    ensures !p.TakeReply? && !p.ReadCode?
  {
    WaitStates(s, c);
    hide CallEmit, Reachable;
  }

  lemma WaitStates(s: State, c: nat)
    requires Reachable(s) && c in s.clients && s.clients[c].kind.KWait?
    ensures !s.clients[c].pc.ReadingCode? && s.clients[c].out == []
    ensures s.clients[c].pc.ReadingErr? ==> s.clients[c].pc.code == s.shared.info.exitCode
  {
    ReachableInv(s);
    assert ClientOk(s, c, s.clients[c]);
  }

  lemma RunningStates(s: State, c: nat)
    requires Control(s) && ClientsOk(s) && c in s.clients && s.clients[c].kind.KRunning?
    ensures !s.clients[c].pc.ReadingErr? && !s.clients[c].pc.ReadingCode?
    ensures s.clients[c].out != [] ==>
              s.clients[c].out[0].BoolReply? && PidCall(c, s.clients[c].out[0].running) in s.log
    ensures s.shared.info.isRunning <==> !s.shared.info.complete
  {
    assert ClientOk(s, c, s.clients[c]);
  }

  lemma RunningSteps(s: State, c: nat, p: CallStep)
    requires CallEnabled(s, c, p) && !p.Begin? && s.clients[c].kind.KRunning?
    requires s.clients[c].out != [] ==> s.clients[c].out[0].BoolReply?
    ensures p.Check? ==> PcAfter(s, c, p) == if s.shared.info.complete then Done(RunningResult(false)) else Offering
    ensures p.TakeReply? ==> PcAfter(s, c, p) == Done(RunningResult(s.clients[c].out[0].running))
    ensures p.OwnCancel? || p.SeeComplete? ==> PcAfter(s, c, p) == ReadingInfo
    ensures p.ReadInfo? ==> PcAfter(s, c, p) == Done(RunningResult(s.shared.info.isRunning))
    ensures p.ReadErr? || p.ReadCode? ==> s.clients[c].pc.ReadingErr? || s.clients[c].pc.ReadingCode?
  {
    hide CallEmit;
  }

  /** `Complete` becomes visible at most once, and not while the reactor is in
      its loop. */
  lemma CompleteOnce(s: State, i: nat, j: nat)
    requires Reachable(s)
    ensures InLoop(s.reactor) ==> !s.shared.info.complete
    ensures i < j < |s.log| && s.log[i] == Published ==> s.log[j] != Published
  {
    ReachableInv(s);
    if i < j < |s.log| && s.log[i] == Published {
      assert s.log[..j][i] == Published;
      assert Admissible(s.log[..j], s.log[j]);
    }
  }

  /** No operation can block the reactor: while it serves a client the client's
      reply channel is empty, so it has room for the one message that a step may
      send; and the step that ends the operation sends exactly one, or none if it is
      a `Wait` operation. */
  lemma OperationsNeverBlock(s: State, a: Action)
    requires Reachable(s) && Enabled(s, a) && a.Operate?
    ensures var c := s.reactor.client;
            var out := Next(s, a).clients[c].out;
            && s.clients[c].out == []
            && |out| <= REPLY_CAPACITY
            && (s.clients[c].kind.KWait? ==> out == [])
            && (out != [] ==> Next(s, a).reactor.Loop?)
            && (Next(s, a).reactor.Loop? ==> |out| == if s.clients[c].kind.KWait? then 0 else 1)
  {
    ReachableInv(s);
    hide Control, OutcomeInv, Facts, CallsOk, InfosOk, TriggersOk, CloseTriggerOk, TagsOk;
    OneReply(s, a.operation);
  }

  lemma OneReply(s: State, o: Operation)
    requires Control(s) && ClientsOk(s) && OperationEnabled(s, o)
    ensures var c := s.reactor.client;
            var out := OperationUpdate(s, o).clients[c].out;
            && s.clients[c].out == []
            && |out| <= REPLY_CAPACITY
            && (s.clients[c].kind.KWait? ==> out == [])
            && (out != [] ==> OperationUpdate(s, o).reactor.Loop?)
            && (OperationUpdate(s, o).reactor.Loop? ==> |out| == if s.clients[c].kind.KWait? then 0 else 1)
  {
    assert ClientOk(s, s.reactor.client, s.clients[s.reactor.client]);
  }

  // ----- signals

  lemma SignalCallOf(s: State, c: nat, sig: int, failed: bool)
    requires CallsOk(s) && SignalCall(c, sig, failed) in s.log
    ensures c in s.clients && s.clients[c].kind.KSignal?
    ensures sig == MakeCompatible(s.cfg.windows, s.clients[c].kind.sig)
    ensures IsServed(s.log, c, sig, Some(failed))
  {
    SignalInStage(s.log, c, sig, failed, StageOf(s, c));
  }

  /** Signals: they reach the executor only before completion, and only after the
      signal triggers that were registered when the operation started all ran, in
      order, with none asking to skip; what is sent is the compatible form of the
      signal that the caller asked for, at most once a call; and a `Signal` call
      that returned nil was executed by the reactor, which ran the triggers and
      then passed the signal on or was asked to skip it. */
  lemma SignalContract(s: State)
    requires Reachable(s)
    ensures SignalsJustified(s.log)
    ensures forall c, sig, failed :: SignalCall(c, sig, failed) in s.log ==>
      && c in s.clients && s.clients[c].kind.KSignal?
      && sig == if s.cfg.windows && s.clients[c].kind.sig in {6, 15} then 9 else s.clients[c].kind.sig
    ensures forall i, j :: 0 <= i < j < |s.log| && s.log[i].SignalCall? && s.log[j].SignalCall? ==>
      s.log[i].client != s.log[j].client
    ensures forall c :: c in s.clients && s.clients[c].pc == Done(SignalResult(true)) ==>
      s.clients[c].kind.KSignal?
      && IsServed(s.log, c, MakeCompatible(s.cfg.windows, s.clients[c].kind.sig), s.clients[c].answer)
  {
    ReachableInv(s);
    AdmissibleMeans(s.log);
    hide ClientOk, InStage, SignalJustified, IsServed;
    forall c, sig, failed | SignalCall(c, sig, failed) in s.log
      ensures c in s.clients && s.clients[c].kind.KSignal?
      ensures sig == if s.cfg.windows && s.clients[c].kind.sig in {6, 15} then 9 else s.clients[c].kind.sig
    {
      SignalCallOf(s, c, sig, failed);
      CompatibleMeans(s.cfg.windows, s.clients[c].kind.sig);
    }
    forall i, j | 0 <= i < j < |s.log| && s.log[i].SignalCall? && s.log[j].SignalCall?
      ensures s.log[i].client != s.log[j].client
    {
      AtMostOnce(s.log, i, j);
    }
    forall c | c in s.clients && s.clients[c].pc == Done(SignalResult(true))
      ensures s.clients[c].kind.KSignal?
      ensures IsServed(s.log, c, MakeCompatible(s.cfg.windows, s.clients[c].kind.sig), s.clients[c].answer)
    {
      NilIsServed(s, c);
    }
  }

  lemma NilIsServed(s: State, c: nat)
    requires ClientsOk(s) && CallsOk(s) && c in s.clients && s.clients[c].pc == Done(SignalResult(true))
    ensures s.clients[c].kind.KSignal?
    ensures IsServed(s.log, c, MakeCompatible(s.cfg.windows, s.clients[c].kind.sig), s.clients[c].answer)
  {
    assert ClientOk(s, c, s.clients[c]) && InStage(s.log, c, StageOf(s, c));
  }

  /** Where a call is after one of its steps. */
  function PcAfter(s: State, c: nat, p: CallStep): ClientPc
    requires CallEnabled(s, c, p)
  {
    Next(s, Call(c, p)).clients[c].pc
  }

  /** What a `Signal` call returns, by the step with which it ends.  With a reply from
      the reactor, nil exactly if the executor took the signal or a trigger asked to
      skip it; without one, an error, unless the call had been received: then nil
      exactly if the final exit code is the signal, in the form it was sent in if it
      was. */
  lemma SignalAnswers(s: State, c: nat, p: CallStep)
    requires Reachable(s) && CallEnabled(s, c, p) && !p.Begin? && s.clients[c].kind.KSignal?
    ensures p.Check? ==> PcAfter(s, c, p) == if s.shared.info.complete then Done(SignalResult(false)) else Offering
    ensures p.TakeReply? ==>
              && (PcAfter(s, c, p) == Done(SignalResult(true)) <==> SentOrSkipped(s.log, c))
              && (PcAfter(s, c, p) == Done(SignalResult(false)) <==> !SentOrSkipped(s.log, c))
    ensures p.OwnCancel? ==> PcAfter(s, c, p) == Done(SignalResult(false))
    ensures p.SeeComplete? ==>
              PcAfter(s, c, p) == if s.clients[c].pc.Offering? then Done(SignalResult(false)) else ReadingInfo
    ensures p.ReadInfo? ==>
              var sig := s.clients[c].kind.sig;
              && s.shared.info.complete
              && PcAfter(s, c, p) ==
                 Done(SignalResult(s.shared.info.exitCode ==
                                   if WasSent(s.log, c) then MakeCompatible(s.cfg.windows, sig) else sig))
    ensures !p.ReadErr? && !p.ReadCode?
  {
    ReachableInv(s);
    hide Reachable, SentOrSkipped, MakeCompatible;
    if p.TakeReply? {
      ReplyTaken(s, c);
    } else if p.ReadInfo? {
      CodeCompared(s, c);
    } else {
      SignalTurned(s, c, p);
    }
  }

  lemma AfterSignalReply(s: State, c: nat)
    requires CallEnabled(s, c, TakeReply) && s.clients[c].out[0].SignalReply?
    ensures PcAfter(s, c, TakeReply) == Done(SignalResult(!s.clients[c].out[0].failed))
  {
    hide CallEmit;
  }

  lemma ReplyTaken(s: State, c: nat)
    requires Control(s) && ClientsOk(s) && CallsOk(s)
    requires CallEnabled(s, c, TakeReply) && s.clients[c].kind.KSignal?
    ensures PcAfter(s, c, TakeReply) == Done(SignalResult(SentOrSkipped(s.log, c)))
  {
    assert ClientOk(s, c, s.clients[c]);
    ServiceIsOver(s, c);
    AfterSignalReply(s, c);
    hide Control, ClientsOk, CallsOk, SentOrSkipped, Next;
  }

  lemma AfterSignalInfo(s: State, c: nat)
    requires CallEnabled(s, c, ReadInfo) && s.clients[c].kind.KSignal?
    ensures var sig := s.clients[c].kind.sig;
            PcAfter(s, c, ReadInfo) ==
            Done(SignalResult(s.shared.info.exitCode ==
                              if s.clients[c].answer.Some? then MakeCompatible(s.cfg.windows, sig) else sig))
  {
    hide CallEmit, MakeCompatible;
  }

  lemma CodeCompared(s: State, c: nat)
    requires Control(s) && ClientsOk(s) && CallsOk(s)
    requires CallEnabled(s, c, ReadInfo) && s.clients[c].kind.KSignal?
    ensures var sig := s.clients[c].kind.sig;
            && s.shared.info.complete
            && PcAfter(s, c, ReadInfo) ==
               Done(SignalResult(s.shared.info.exitCode ==
                                 if WasSent(s.log, c) then MakeCompatible(s.cfg.windows, sig) else sig))
  {
    assert ClientOk(s, c, s.clients[c]);
    ServiceIsOver(s, c);
    AfterSignalInfo(s, c);
    hide Control, ClientsOk, CallsOk, Next, MakeCompatible;
    assert s.clients[c].answer.Some? ==>
      SignalCall(c, MakeCompatible(s.cfg.windows, s.clients[c].kind.sig), s.clients[c].answer.value) in s.log;
  }

  lemma SignalTurned(s: State, c: nat, p: CallStep)
    requires Inv(s) && CallEnabled(s, c, p) && !p.Begin? && s.clients[c].kind.KSignal?
    requires p.Check? || p.Offer? || p.OwnCancel? || p.SeeComplete? || p.ReadErr? || p.ReadCode?
    ensures p.Check? ==> PcAfter(s, c, p) == if s.shared.info.complete then Done(SignalResult(false)) else Offering
    ensures p.OwnCancel? ==> PcAfter(s, c, p) == Done(SignalResult(false))
    ensures p.SeeComplete? ==>
              PcAfter(s, c, p) == if s.clients[c].pc.Offering? then Done(SignalResult(false)) else ReadingInfo
    ensures !p.ReadErr? && !p.ReadCode?
  {
    hide Control, OutcomeInv, Facts, CallsOk, InfosOk, TriggersOk, CloseTriggerOk, TagsOk, CallEmit;
    assert ClientOk(s, c, s.clients[c]);
  }

  /** A signal was sent for this client. */
  ghost predicate WasSent(log: Log, c: nat) {
    exists sig, failed :: SignalCall(c, sig, failed) in log
  }

  /** Once there is a reply, or completion ended the call, the operation is over. */
  lemma ServiceIsOver(s: State, c: nat)
    requires Control(s) && ClientsOk(s) && CallsOk(s) && c in s.clients && s.clients[c].kind.KSignal?
    requires s.clients[c].out != [] || s.clients[c].pc.ReadingInfo?
    ensures SentOrSkipped(s.log, c) <==> s.clients[c].answer != Some(true)
    ensures forall sig, failed :: SignalCall(c, sig, failed) in s.log <==>
              sig == MakeCompatible(s.cfg.windows, s.clients[c].kind.sig) && s.clients[c].answer == Some(failed)
  {
    assert ClientOk(s, c, s.clients[c]) && InStage(s.log, c, StageOf(s, c));
    ServedWell(s.log, c, MakeCompatible(s.cfg.windows, s.clients[c].kind.sig), s.clients[c].answer);
  }

  /** The window of a signal: the triggers that ran for it are those registered
      when its operation started, at `k`; they are all the registered triggers
      exactly when none was accepted from then until the signal was sent. */
  lemma SignalWindow(s: State, j: nat) returns (k: nat)
    requires Reachable(s) && j < |s.log| && s.log[j].SignalCall?
    ensures var c := s.log[j].client;
            && k < j && s.log[k] == OperationStarted(c) && OperationStarted(c) !in s.log[..k]
            && Service(s.log[..j], c) == [OperationStarted(c)] + NoneSkipped(c, Collect(s.log[..k], HookOf))
            && (Service(s.log[..j], c) == [OperationStarted(c)] + NoneSkipped(c, Collect(s.log[..j], HookOf))
                <==> forall e :: e in s.log[k..j] ==> !e.SignalTriggerAccepted?)
  {
    SignalContract(s);
    hide Inv, Reachable;
    var c := s.log[j].client;
    var before := s.log[..j];
    k := ReadIsStarted(before, c);
    assert before[..k] == s.log[..k] && before[k..] == s.log[k..j];
    ReadIsAll(c, before, k);
  }

  /** The triggers accepted up to `k` are all that were accepted. */
  lemma ReadIsAll(c: nat, log: Log, k: nat)
    requires k <= |log|
    ensures [OperationStarted(c)] + NoneSkipped(c, Collect(log[..k], HookOf))
            == [OperationStarted(c)] + NoneSkipped(c, Collect(log, HookOf))
            <==> forall e :: e in log[k..] ==> !e.SignalTriggerAccepted?
  {
    CollectSplit(log, k, HookOf);
    HooksIn(log[k..]);
    var read, all := Collect(log[..k], HookOf), Collect(log, HookOf);
    if [OperationStarted(c)] + NoneSkipped(c, read) == [OperationStarted(c)] + NoneSkipped(c, all) {
      assert NoneSkipped(c, read) == ([OperationStarted(c)] + NoneSkipped(c, read))[1..];
      assert NoneSkipped(c, all) == ([OperationStarted(c)] + NoneSkipped(c, all))[1..];
      NoneSkippedInjective(c, read, all);
    }
  }

  /** Nothing more is done for a call whose signal was sent: triggers accepted in
      the window, or later, never run for it. */
  lemma NothingAfterSignal(s: State, j: nat)
    requires Reachable(s) && j < |s.log| && s.log[j].SignalCall?
    ensures Service(s.log, s.log[j].client) == Service(s.log[..j], s.log[j].client) + [s.log[j]]
  {
    ReachableInv(s);
    SignalContract(s);
    var c, sig, failed := s.log[j].client, s.log[j].sig, s.log[j].failed;
    SignalCallOf(s, c, sig, failed);
    ServiceEnds(s.log, c, sig, failed, j);
  }

  /** The window can be reached: here a trigger is accepted, and the signal goes
      out without it. */
  lemma SignalWindowReachable(cfg: Config, hook: nat, sig: int) returns (s: State)
    ensures Reachable(s)
    ensures s.log == [Accepted(OptionsClose), Observed(false), OperationStarted(0),
                      SignalTriggerAccepted(hook), SignalCall(0, MakeCompatible(cfg.windows, sig), false)]
  {
    s := AtHooks(cfg, sig);
    ReachableStep(s, Lock(RegisteringSignalTrigger(hook)));
    s := Next(s, Lock(RegisteringSignalTrigger(hook)));
    ReachableStep(s, Operate(SendSignal(false)));
    s := Next(s, Operate(SendSignal(false)));
  }

  /** One call of `Signal`, up to where the reactor has read the triggers. */
  lemma AtHooks(cfg: Config, sig: int) returns (s: State)
    ensures Reachable(s) && s.cfg == cfg && s.reactor == Hooking(0, [], []) && !s.shared.info.complete
    ensures 0 in s.clients && s.clients[0].kind == KSignal(sig) && s.shared.signalTriggers == []
    ensures s.log == [Accepted(OptionsClose), Observed(false), OperationStarted(0)]
  {
    s := AtOffer(cfg, sig);
    ReachableStep(s, Call(0, Offer));
    s := Next(s, Call(0, Offer));
    ReachableStep(s, Operate(ReadHooks));
    s := Next(s, Operate(ReadHooks));
  }

  lemma AtOffer(cfg: Config, sig: int) returns (s: State)
    ensures Reachable(s) && s.cfg == cfg && s.reactor.Loop? && !s.shared.info.complete
    ensures At(s, 0, Offering) && s.clients[0].kind == KSignal(sig) && s.shared.signalTriggers == []
    ensures s.log == [Accepted(OptionsClose), Observed(false)]
  {
    s := Init(cfg, [], []);
    assert IsRun(s, []) && After(s, []) == s;
    ReachableStep(s, Call(0, Begin(KSignal(sig))));
    s := Next(s, Call(0, Begin(KSignal(sig))));
    ReachableStep(s, Call(0, Check));
    s := Next(s, Call(0, Check));
  }

  lemma ExecutorContract(s: State)
    requires Reachable(s)
    ensures RespectsExecutor(s.log)
  {
    ReachableInv(s);
    AdmissibleMeans(s.log);
  }

  /** The triggers that ran are exactly those registered when the reactor took
      its trigger step, each once and in order, and the accepted triggers that
      never run are exactly those registered after that step. */
  lemma TriggersRun(s: State)
    requires Reachable(s)
    ensures s.cut <= |s.log|
    ensures Collect(s.log, RanOf) ==
            if BeforeTriggers(s.reactor) then [] else Collect(s.log[..s.cut], AcceptedOf)
    ensures !BeforeTriggers(s.reactor) ==>
              Collect(s.log, AcceptedOf) == Collect(s.log, RanOf) + Collect(s.log[s.cut..], AcceptedOf)
  {
    ReachableInv(s);
    CollectSplit(s.log, s.cut, AcceptedOf);
  }

  /** Triggers run, and registrations are accepted, only before `Complete` is
      visible; registrations are refused, and `Wait` returns, only after. */
  lemma TriggersBeforeComplete(s: State, j: nat)
    requires Reachable(s) && j < |s.log|
    ensures s.log[j].Ran? || s.log[j].Accepted? ==> Published !in s.log[..j]
    ensures s.log[j].Refused? || s.log[j].WaitDone? ==> Published in s.log[..j]
    ensures s.log[j].Observed? ==> (s.log[j].complete <==> Published in s.log[..j])
  {
    ReachableInv(s);
    assert Admissible(s.log[..j], s.log[j]);
  }

  lemma RanKept(s: State, a: Action)
    requires Control(s) && TriggersOk(s) && CloseTriggerOk(s) && !BeforeTriggers(s.reactor) && Enabled(s, a)
    ensures var t := Next(s, a);
            !BeforeTriggers(t.reactor) && Collect(t.log, RanOf) == Collect(s.log, RanOf)
  {
    RunsBy(s, a);
    TriggerStep(s, a);
    CollectConcat(s.log, Emit(s, a), RanOf);
  }

  lemma {:induction false} RanFrozen(s: State, acts: seq<Action>)
    requires Control(s) && TriggersOk(s) && CloseTriggerOk(s) && !BeforeTriggers(s.reactor) && IsRun(s, acts)
    ensures Collect(After(s, acts).log, RanOf) == Collect(s.log, RanOf)
    decreases |acts|
  {
    if acts != [] {
      ControlKept(s, acts[0]);
      TriggersKept(s, acts[0]);
      CloseTriggerKept(s, acts[0]);
      RanKept(s, acts[0]);
      RanFrozen(Next(s, acts[0]), acts[1..]);
    }
  }

  /** The window: a new trigger registered after the trigger step and before
      publication is accepted, and no continuation ever runs it. */
  lemma WindowLosesTriggers(s: State, t: Trigger, acts: seq<Action>)
    requires Reachable(s) && (s.reactor.Triggered? || s.reactor.ErrSet?)
    requires t.User? && t !in s.shared.triggers
    requires IsRun(Next(s, Lock(RegisteringTrigger(t))), acts)
    ensures Next(s, Lock(RegisteringTrigger(t))).log == s.log + [Accepted(t)]
    ensures t !in Collect(After(Next(s, Lock(RegisteringTrigger(t))), acts).log, RanOf)
  {
    hide Inv, Control, Enabled, Next;
    InWindow(s, t);
    RanFrozen(Next(s, Lock(RegisteringTrigger(t))), acts);
  }

  lemma InWindow(s: State, t: Trigger)
    requires Reachable(s) && (s.reactor.Triggered? || s.reactor.ErrSet?)
    requires t.User? && t !in s.shared.triggers
    ensures var a := Lock(RegisteringTrigger(t));
            && Enabled(s, a) && Next(s, a).log == s.log + [Accepted(t)]
            && Control(Next(s, a)) && TriggersOk(Next(s, a)) && CloseTriggerOk(Next(s, a))
            && !BeforeTriggers(Next(s, a).reactor) && t !in Collect(Next(s, a).log, RanOf)
  {
    var a := Lock(RegisteringTrigger(t));
    ReachableInv(s);
    assert !s.shared.info.complete;
    ControlKept(s, a);
    TriggersKept(s, a);
    CloseTriggerKept(s, a);
    RanKept(s, a);
    TriggersRun(s);
    hide Control, TriggersOk, CloseTriggerOk, OutcomeInv, Facts, ClientsOk, CallsOk, InfosOk, TagsOk;
  }

  lemma {:induction false} RunConcat(s: State, acts: seq<Action>, a: Action)
    requires IsRun(s, acts) && Enabled(After(s, acts), a)
    ensures IsRun(s, acts + [a]) && After(s, acts + [a]) == Next(After(s, acts), a)
    decreases |acts|
  {
    if acts == [] {
      assert acts + [a] == [a];
      assert [a][1..] == [];
    } else {
      RunConcat(Next(s, acts[0]), acts[1..], a);
      assert (acts + [a])[1..] == acts[1..] + [a];
    }
  }

  lemma ReachableStep(s: State, a: Action)
    requires Reachable(s) && Enabled(s, a)
    ensures Reachable(Next(s, a))
  {
    var s0 := Init(s.cfg, s.initialTags, s.closers);
    var acts :| IsRun(s0, acts) && After(s0, acts) == s;
    RunConcat(s0, acts, a);
    SameConfig(s, a);
    hide Enabled, Next;
  }

  /** The window can be reached: here by cancelling the process's context. */
  lemma WindowReachable(cfg: Config, tags: seq<string>, closers: seq<nat>) returns (s: State)
    ensures Reachable(s) && s.reactor.Triggered? && s.shared.triggers == [OptionsClose]
  {
    s := Init(cfg, tags, closers);
    assert IsRun(s, []) && After(s, []) == s;
    ReachableStep(s, CancelContext);
    s := Next(s, CancelContext);
    ReachableStep(s, React(TakeContext));
    s := Next(s, React(TakeContext));
    ReachableStep(s, React(Snapshot(0)));
    s := Next(s, React(Snapshot(0)));
    ReachableStep(s, React(RunTriggers));
    s := Next(s, React(RunTriggers));
  }

  /** The tag set is the set of tags in the options, and both are what replaying
      every `Tag` and `ResetTags` call gives: publishing the reactor's stale view
      loses none of them. */
  lemma TagsNeverLost(s: State)
    requires Reachable(s)
    ensures s.shared.info.tagList == ReplayTags(s.initialTags, s.log)
    ensures s.shared.tags == set x | x in ReplayTags(s.initialTags, s.log)
    ensures forall x :: x in s.shared.tags <==>
              TaggedSinceReset(s.log, x) || (x in s.initialTags && TagsReset !in s.log)
  {
    ReachableInv(s);
    TagsMean(s.initialTags, s.log);
    hide ReplayTags, TaggedSinceReset;
  }

  /** What a completed process reports.  When the executor's exit was received,
      the outcome is the executor's report; when the closed channel was, the
      error is nil whatever `Wait` returned; and when the context was taken, the
      process is unsuccessful with exit code zero, whatever the executor reports.
      Off the context's branch the exit code is the number of the signal that ended
      the process, if one did, and a timeout is a process that was killed, or on
      Windows exited with code 1, after its deadline.
      So each part of the published outcome differs from the executor's report
      exactly when the closed channel hid an error, or when the context was taken
      and the report says something else than the context's branch publishes. */
  lemma PublishedOutcome(s: State)
    requires Reachable(s) && s.shared.info.complete
    ensures OutcomeFits(s, s.shared.info, s.shared.err)
    ensures s.report.Some? ==>
              var r, info := s.report.value, s.shared.info;
              && (s.shared.err != r.err <==>
                    || (s.branch == Some(ByClosedChannel) && r.err.Some?)
                    || (s.branch == Some(ByContext) && r.err != Some(ContextError)))
              && (info.exitCode != ReportedExitCode(r) <==> s.branch == Some(ByContext) && ReportedExitCode(r) != 0)
              && (s.branch != Some(ByContext) ==>
                    && (r.signal.Some? ==> info.exitCode == r.signal.value)
                    && (r.signal.None? ==> info.exitCode == r.exitCode)
                    && (info.timeout <==>
                          && s.cfg.deadline.Some? && info.endAt > s.cfg.deadline.value
                          && if r.signal.Some? then r.signal.value == 9 else s.cfg.windows && r.exitCode == 1))
              && (info.successful != r.success <==> s.branch == Some(ByContext) && r.success)
              && (info.timeout != ReportedTimeout(s.cfg, r, info.endAt, false) <==>
                    s.branch == Some(ByContext) && ReportedTimeout(s.cfg, r, info.endAt, false))
  {
    ReachableInv(s);
    CompleteOutcome(s);
    if s.report.Some? {
      ReportedMeans(s.cfg, s.report.value, s.shared.info.endAt);
    }
    hide Inv, OutcomeInv, Control, ReportedTimeout, ReportedExitCode;
  }

  lemma CompleteOutcome(s: State)
    requires Control(s) && OutcomeInv(s) && s.shared.info.complete
    ensures OutcomeFits(s, s.shared.info, s.shared.err)
  {
  }

  /** From where the reactor left its loop it can publish. */
  lemma Publishes(s: State, now: int) returns (t: State)
    requires Reachable(s) && (s.reactor.Cancelled? || (s.reactor.Received? && s.report.Some?))
    ensures Reachable(t) && t.reactor.InfoSet? && t.branch == s.branch && t.report == s.report && t.ctxDone == s.ctxDone
  {
    ReachableStep(s, React(Snapshot(now)));
    t := Next(s, React(Snapshot(now)));
    ReachableStep(t, React(RunTriggers));
    t := Next(t, React(RunTriggers));
    ReachableStep(t, React(SetErr));
    t := Next(t, React(SetErr));
    ReachableStep(t, React(SetInfo));
    t := Next(t, React(SetInfo));
    hide Reachable;
  }

  lemma Publication(s: State)
    requires Reachable(s) && s.reactor.InfoSet?
    ensures s.shared.info.complete && OutcomeFits(s, s.shared.info, s.shared.err)
  {
    ReachableInv(s);
    hide OutcomeFits, Facts, ClientsOk, CallsOk, InfosOk, TriggersOk, CloseTriggerOk, TagsOk;
  }

  /** The executor reports, and the process's context is cancelled. */
  lemma ReportedAndCancelled(cfg: Config, r: ExitReport) returns (s: State)
    ensures Reachable(s) && s.exit == Returned(r.err) && s.report == Some(r) && s.ctxDone && s.reactor.Loop?
  {
    s := Init(cfg, [], []);
    assert IsRun(s, []) && After(s, []) == s;
    ReachableStep(s, Exit(StartWait));
    s := Next(s, Exit(StartWait));
    ReachableStep(s, Exit(WaitReturns(r)));
    s := Next(s, Exit(WaitReturns(r)));
    ReachableStep(s, CancelContext);
    s := Next(s, CancelContext);
  }

  /** The closed channel can hide the executor's error: the process is complete,
      its executor reported an error, and the published error is nil. */
  lemma ErrorHidden(cfg: Config, r: ExitReport, now: int) returns (s: State)
    requires r.err.Some?
    ensures Reachable(s) && s.shared.info.complete && s.branch == Some(ByClosedChannel)
    ensures s.report == Some(r) && s.shared.err.None?
  {
    s := ReportedAndCancelled(cfg, r);
    ReachableStep(s, Exit(SeeContext));
    s := Next(s, Exit(SeeContext));
    ReachableStep(s, Exit(CloseSignal));
    s := Next(s, Exit(CloseSignal));
    ReachableStep(s, React(ReceiveClosed));
    s := Next(s, React(ReceiveClosed));
    hide Reachable, Next, Enabled;
    s := Publishes(s, now);
    Publication(s);
  }

  /** Without cancellation any report is published as it is. */
  lemma ReportPublished(cfg: Config, r: ExitReport, now: int) returns (s: State)
    ensures Reachable(s) && s.shared.info.complete && s.branch == Some(ByExit) && s.report == Some(r) && !s.ctxDone
    ensures s.shared.err == r.err && s.shared.info.successful == r.success
    ensures s.shared.info.exitCode == if r.signal.Some? then r.signal.value else r.exitCode
  {
    s := Init(cfg, [], []);
    assert IsRun(s, []) && After(s, []) == s;
    ReachableStep(s, Exit(StartWait));
    s := Next(s, Exit(StartWait));
    ReachableStep(s, Exit(WaitReturns(r)));
    s := Next(s, Exit(WaitReturns(r)));
    ReachableStep(s, React(ReceiveExit));
    s := Next(s, React(ReceiveExit));
    hide Reachable, Next, Enabled;
    s := Publishes(s, now);
    Publication(s);
  }

  /** And the context can hide any report at all: whatever the executor reported,
      an exit code other than zero or a success included, the process is complete,
      unsuccessful, with exit code zero and the context's error. */
  lemma ReportHidden(cfg: Config, r: ExitReport, now: int) returns (s: State)
    ensures Reachable(s) && s.shared.info.complete && s.branch == Some(ByContext) && s.report == Some(r)
    ensures s.shared.info.exitCode == 0 && !s.shared.info.successful && s.shared.err == Some(ContextError)
  {
    s := ReportedAndCancelled(cfg, r);
    ReachableStep(s, React(TakeContext));
    s := Next(s, React(TakeContext));
    hide Reachable, Next, Enabled;
    s := Publishes(s, now);
    Publication(s);
  }

  /** The options' closers: none has run before the trigger step, and each has
      run exactly once after it, on the exit branch and on the context branch. */
  lemma OptionsClosedOnce(s: State)
    requires Reachable(s)
    ensures Collect(s.log, CloserOf) == if BeforeTriggers(s.reactor) then [] else s.closers
    ensures s.shared.info.complete ==> Collect(s.log, CloserOf) == s.closers
    ensures s.shared.info.closers == s.closers
  {
    ReachableInv(s);
  }
}
