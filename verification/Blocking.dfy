/** The blocking process (`process_blocking.go`) as a transition system.

    The participants are the reactor goroutine, the goroutine that waits for the
    executor, the process's context, and any number of client calls.  Each block
    that holds the mutex is one step, and so is each channel operation; a send on
    an unbuffered channel and its receive are one step.  What the reactor does for
    a `Signal` call holds no lock: reading the signal triggers, running each of
    them, sending the signal and replying are steps of their own.  A run is a
    sequence of actions in any order that the guards allow.
 */
module Blocking {
  import opened Wrappers
  import opened Lifecycle

  /** The fields guarded by the process's mutex. */
  datatype Shared = Shared(
    info: Info,
    err: Option<Error>,
    triggers: seq<Trigger>,
    signalTriggers: seq<nat>,
    tags: set<string>)

  function RegisterTrigger(sh: Shared, t: Trigger): Shared {
    if sh.info.complete then sh else sh.(triggers := sh.triggers + [t])
  }

  function RegisterSignalTrigger(sh: Shared, h: nat): Shared {
    if sh.info.complete then sh else sh.(signalTriggers := sh.signalTriggers + [h])
  }

  function Tag(sh: Shared, x: string): Shared {
    if x in sh.tags then sh
    else sh.(tags := sh.tags + {x}, info := sh.info.(tagList := sh.info.tagList + [x]))
  }

  function ResetTags(sh: Shared): Shared {
    sh.(tags := {}, info := sh.info.(tagList := []))
  }

  /** The reactor's last critical section: its own view of the information is
      published with the options that are current by then. */
  function Publish(sh: Shared, info: Info): Shared {
    sh.(info := info.(tagList := sh.info.tagList, closers := sh.info.closers))
  }

  // ----- participants

  /** The goroutine that sends `exec.Wait()` on the `signal` channel. */
  datatype ExitPc = NotStarted | Waiting | Returned(err: Option<Error>) | Closing | Closed

  /** How the reactor left its loop. */
  datatype Branch = ByExit | ByClosedChannel | ByContext

  datatype ReactorPc =
    | Loop
    | RunOp(client: nat)                 // received an operation, has done nothing for it
    | Hooking(client: nat, hooks: seq<nat>, verdicts: seq<bool>)  // read `hooks`, ran some
    | Replying(client: nat, failed: bool)
    | Received(err: Option<Error>)
    | Cancelled
    | Snapped(info: Info, err: Option<Error>)
    | Triggered(info: Info, err: Option<Error>)
    | ErrSet(info: Info)
    | InfoSet
    | ChannelClosed
    | Exited

  datatype Kind = KInfo | KRunning | KSignal(sig: int) | KWait

  datatype Reply = InfoReply(info: Info) | BoolReply(running: bool) | SignalReply(failed: bool) | WaitReply(err: Option<Error>)

  datatype Result =
    | InfoResult(info: Info)
    | RunningResult(running: bool)
    | SignalResult(ok: bool)
    | WaitResult(code: int, err: Option<Error>)
    | WaitCancelled

  datatype ClientPc =
    | Checking
    | Offering
    | AwaitingReply
    | ReadingInfo
    | ReadingErr(code: int)    // `Wait` saw completion and read the exit code
    | ReadingCode(err: Option<Error>)  // `Wait` received an error from its reply channel
    | Done(result: Result)

  /** One call of a client; `out` is its reply channel, of capacity one.  `answer`
      says whether sending the signal failed, once its operation has sent it, which
      also rewrote the call's own variable to what was sent. */
  datatype Client = Client(kind: Kind, pc: ClientPc, out: seq<Reply>, answer: Option<bool>)

  const REPLY_CAPACITY := 1

  datatype State = State(
    cfg: Config,
    initialTags: seq<string>,
    closers: seq<nat>,         // the closers of the options it was started with
    shared: Shared,
    ctxDone: bool,
    completeClosed: bool,
    exit: ExitPc,
    report: Option<ExitReport>,
    reactor: ReactorPc,
    branch: Option<Branch>,
    clients: map<nat, Client>,
    cut: nat,  // length of the history when the triggers were run
    log: Log)

  /** Steps of the goroutine that waits for the executor. */
  datatype ExitStep = StartWait | WaitReturns(report: ExitReport) | SeeContext | CloseSignal

  /** Steps of the reactor other than running a client's operation. */
  datatype ReactorStep =
    | ReceiveExit
    | ReceiveClosed
    | TakeContext
    | Snapshot(now: int)
    | RunTriggers
    | SetErr
    | SetInfo
    | CloseComplete
    | CloseExecutor

  /** The reactor runs a client's operation: for `Info`, `Running` and `Wait` in
      one step, for `Signal` in several. */
  datatype Operation =
    | RunInfo
    | RunRunning(pidIsPositive: bool)
    | RunWait
    | ReadHooks
    | RunHook(skip: bool)
    | SendSignal(fails: bool)
    | SkipSignal
    | SendReply

  /** Steps of one client call. */
  datatype CallStep =
    | Begin(kind: Kind)
    | Check
    | Offer
    | TakeReply
    | OwnCancel
    | SeeComplete
    | ReadInfo
    | ReadErr
    | ReadCode

  /** Methods that are one critical section. */
  datatype Section =
    | RegisteringTrigger(trigger: Trigger)
    | RegisteringSignalTrigger(hook: nat)
    | Tagging(tag: string)
    | ResettingTags

  datatype Action =
    | CancelContext
    | Exit(exitStep: ExitStep)
    | React(reactorStep: ReactorStep)
    | Operate(operation: Operation)
    | Call(client: nat, callStep: CallStep)
    | Lock(section: Section)

  function Init(cfg: Config, tags: seq<string>, closers: seq<nat>): State {
    State(cfg, tags, closers,
          Shared(Started(tags, closers), None, [OptionsClose], [],
                 set x | x in tags),
          false, false, NotStarted, None, Loop, None, map[], 0, [Accepted(OptionsClose)])
  }

  predicate At(s: State, c: nat, pc: ClientPc) {
    c in s.clients && s.clients[c].pc == pc
  }

  /** The reactor is busy with this client's operation. */
  predicate Serves(pc: ReactorPc, c: nat) {
    (pc.RunOp? || pc.Hooking? || pc.Replying?) && pc.client == c
  }

  predicate Operating(s: State) {
    (s.reactor.RunOp? || s.reactor.Hooking? || s.reactor.Replying?) && s.reactor.client in s.clients
  }

  predicate ExitEnabled(s: State, e: ExitStep) {
    match e
    case StartWait => s.exit.NotStarted?
    case WaitReturns(_) => s.exit.Waiting?
    case SeeContext => s.exit.Returned? && s.ctxDone
    case CloseSignal => s.exit.Closing?
  }

  function ExitUpdate(s: State, e: ExitStep): State {
    match e
    case StartWait => s.(exit := Waiting)
    case WaitReturns(r) => s.(exit := Returned(r.err), report := Some(r))
    case SeeContext => s.(exit := Closing)
    case CloseSignal => s.(exit := Closed)
  }

  function ExitEmit(e: ExitStep): Log {
    if e.StartWait? then [WaitCall] else if e.WaitReturns? then [WaitReturn] else []
  }

  predicate ReactorEnabled(s: State, r: ReactorStep) {
    match r
    case ReceiveExit => s.reactor.Loop? && s.exit.Returned?
    case ReceiveClosed => s.reactor.Loop? && s.exit.Closed?
    case TakeContext => s.reactor.Loop? && s.ctxDone
    case Snapshot(_) => s.reactor.Cancelled? || (s.reactor.Received? && s.report.Some?)
    case RunTriggers => s.reactor.Snapped?
    case SetErr => s.reactor.Triggered?
    case SetInfo => s.reactor.ErrSet?
    case CloseComplete => s.reactor.InfoSet?
    case CloseExecutor => s.reactor.ChannelClosed?
  }

  /** The reactor's own copy of the information, taken under the read lock.
      The executor is asked only when the `signal` channel delivered. */
  function TakeSnapshot(s: State, now: int): State
    requires ReactorEnabled(s, Snapshot(now))
  {
    if s.reactor.Cancelled? then
      s.(reactor := Snapped(s.shared.info.(complete := true, isRunning := false, successful := false, endAt := now),
                            Some(ContextError)))
    else
      s.(reactor := Snapped(Finished(s.shared.info, s.cfg, s.report.value, now), s.reactor.err),
         shared := s.shared.(info := s.shared.info.(endAt := now)))
  }

  function ReactorUpdate(s: State, r: ReactorStep): State
    requires ReactorEnabled(s, r)
  {
    match r
    case ReceiveExit => s.(exit := Closing, reactor := Received(s.exit.err), branch := Some(ByExit))
    case ReceiveClosed => s.(reactor := Received(None), branch := Some(ByClosedChannel))
    case TakeContext => s.(reactor := Cancelled, branch := Some(ByContext))
    case Snapshot(now) => TakeSnapshot(s, now)
    case RunTriggers => s.(reactor := Triggered(s.reactor.info, s.reactor.err), cut := |s.log|)
    case SetErr => s.(reactor := ErrSet(s.reactor.info), shared := s.shared.(err := s.reactor.err))
    case SetInfo => s.(reactor := InfoSet, shared := Publish(s.shared, s.reactor.info))
    case CloseComplete => s.(reactor := ChannelClosed, completeClosed := true)
    case CloseExecutor => s.(reactor := Exited)
  }

  function ReactorEmit(s: State, r: ReactorStep): Log
    requires ReactorEnabled(s, r)
  {
    match r
    case Snapshot(_) =>
      if s.reactor.Cancelled? then []
      else if s.report.value.signal.Some? then [SuccessCall, SignalInfoCall]
      else [SuccessCall, SignalInfoCall, ExitCodeCall]
    case RunTriggers => RanAll(s.shared.triggers, s.reactor.info.closers)
    case SetInfo => [Published]
    case CloseExecutor => [CloseCall]
    case _ => []
  }

  predicate OperationEnabled(s: State, o: Operation) {
    Operating(s) &&
    var kind := s.clients[s.reactor.client].kind;
    match o
    case RunInfo => s.reactor.RunOp? && kind.KInfo?
    case RunRunning(_) => s.reactor.RunOp? && kind.KRunning?
    case RunWait => s.reactor.RunOp? && kind.KWait?
    case ReadHooks => s.reactor.RunOp? && kind.KSignal?
    case RunHook(_) => s.reactor.Hooking? && |s.reactor.verdicts| < |s.reactor.hooks|
    case SendSignal(_) =>
      kind.KSignal? && s.reactor.Hooking? && |s.reactor.verdicts| == |s.reactor.hooks| && true !in s.reactor.verdicts
    case SkipSignal =>
      s.reactor.Hooking? && |s.reactor.verdicts| == |s.reactor.hooks| && true in s.reactor.verdicts
    case SendReply => s.reactor.Replying?
  }

  /** The messages that a step sends on its client's reply channel. */
  function Replies(s: State, o: Operation): seq<Reply>
    requires OperationEnabled(s, o)
  {
    match o
    case RunInfo => [InfoReply(s.shared.info)]
    case RunRunning(positive) => [BoolReply(positive)]
    case RunWait => if s.shared.info.complete then [WaitReply(s.shared.err)] else []
    case SendReply => [SignalReply(s.reactor.failed)]
    case _ => []
  }

  /** Where a step of an operation leaves the reactor. */
  function ReactorAfter(s: State, o: Operation): ReactorPc
    requires OperationEnabled(s, o)
  {
    var c := s.reactor.client;
    match o
    case ReadHooks => Hooking(c, s.shared.signalTriggers, [])
    case RunHook(skip) => Hooking(c, s.reactor.hooks, s.reactor.verdicts + [skip])
    case SendSignal(fails) => Replying(c, fails)
    case SkipSignal => Replying(c, false)
    case _ => Loop
  }

  function OperationUpdate(s: State, o: Operation): State
    requires OperationEnabled(s, o)
  {
    var c := s.reactor.client;
    var cl := s.clients[c];
    s.(reactor := ReactorAfter(s, o),
       clients := s.clients[c := cl.(out := cl.out + Replies(s, o),
                                      answer := if o.SendSignal? then Some(o.fails) else cl.answer)])
  }

  function OperationEmit(s: State, o: Operation): Log
    requires OperationEnabled(s, o)
  {
    var c := s.reactor.client;
    match o
    case RunRunning(positive) => [OperationStarted(c), PidCall(c, positive)]
    case ReadHooks => [OperationStarted(c)]
    case RunHook(skip) => [SignalTriggerRan(c, s.reactor.hooks[|s.reactor.verdicts|], skip)]
    case SendSignal(fails) => [SignalCall(c, MakeCompatible(s.cfg.windows, s.clients[c].kind.sig), fails)]
    case SkipSignal => []
    case SendReply => []
    case _ => [OperationStarted(c), Observed(s.shared.info.complete)]
  }

  predicate CallEnabled(s: State, c: nat, p: CallStep) {
    match p
    case Begin(_) => c !in s.clients
    case Check => At(s, c, Checking)
    case Offer => At(s, c, Offering) && s.reactor.Loop?
    case TakeReply => (At(s, c, AwaitingReply) || At(s, c, Offering)) && s.clients[c].out != []
    case OwnCancel => At(s, c, AwaitingReply) || At(s, c, Offering)
    case SeeComplete => (At(s, c, AwaitingReply) || At(s, c, Offering)) && s.completeClosed
    case ReadInfo => At(s, c, ReadingInfo)
    case ReadErr => c in s.clients && s.clients[c].pc.ReadingErr?
    case ReadCode => c in s.clients && s.clients[c].pc.ReadingCode?
  }

  function AfterCheck(k: Kind, complete: bool): ClientPc {
    if !complete then Offering
    else match k
      case KRunning => Done(RunningResult(false))
      case KSignal(_) => Done(SignalResult(false))
      case _ => ReadingInfo
  }

  function AfterReply(r: Reply): ClientPc {
    match r
    case InfoReply(i) => Done(InfoResult(i))
    case BoolReply(b) => Done(RunningResult(b))
    case SignalReply(failed) => Done(SignalResult(!failed))
    case WaitReply(err) => ReadingCode(err)
  }

  function AfterCancel(k: Kind): ClientPc {
    match k
    case KSignal(_) => Done(SignalResult(false))
    case KWait => Done(WaitCancelled)
    case _ => ReadingInfo
  }

  /** The call's own signal variable. */
  function Sig(cfg: Config, cl: Client): int
    requires cl.kind.KSignal?
  {
    if cl.answer.Some? then MakeCompatible(cfg.windows, cl.kind.sig) else cl.kind.sig
  }

  function AfterInfo(cfg: Config, cl: Client, info: Info): ClientPc {
    match cl.kind
    case KInfo => Done(InfoResult(info))
    case KRunning => Done(RunningResult(info.isRunning))
    case KSignal(_) => Done(SignalResult(info.exitCode == Sig(cfg, cl)))
    case KWait => ReadingErr(info.exitCode)
  }

  /** The client's own state after one of its steps. */
  function ClientAfter(s: State, c: nat, p: CallStep): Client
    requires CallEnabled(s, c, p)
  {
    match p
    case Begin(kind) => Client(kind, Checking, [], None)
    case Check => s.clients[c].(pc := AfterCheck(s.clients[c].kind, s.shared.info.complete))
    case Offer => s.clients[c].(pc := if s.clients[c].kind.KWait? then Offering else AwaitingReply)
    case TakeReply => s.clients[c].(out := s.clients[c].out[1..], pc := AfterReply(s.clients[c].out[0]))
    case OwnCancel => s.clients[c].(pc := AfterCancel(s.clients[c].kind))
    case SeeComplete =>
      s.clients[c].(pc := if s.clients[c].kind.KSignal? && s.clients[c].pc.Offering?
                          then Done(SignalResult(false)) else ReadingInfo)
    case ReadInfo => s.clients[c].(pc := AfterInfo(s.cfg, s.clients[c], s.shared.info))
    case ReadErr => s.clients[c].(pc := Done(WaitResult(s.clients[c].pc.code, s.shared.err)))
    case ReadCode => s.clients[c].(pc := Done(WaitResult(s.shared.info.exitCode, s.clients[c].pc.err)))
  }

  function CallUpdate(s: State, c: nat, p: CallStep): State
    requires CallEnabled(s, c, p)
  {
    s.(reactor := if p.Offer? then RunOp(c) else s.reactor,
       clients := s.clients[c := ClientAfter(s, c, p)])
  }

  function CallEmit(s: State, c: nat, p: CallStep): Log
    requires CallEnabled(s, c, p)
  {
    match p
    case Check => [Observed(s.shared.info.complete)]
    case ReadInfo => [Observed(s.shared.info.complete)]
    case ReadErr => [WaitDone(c, s.clients[c].pc.code, s.shared.err)]
    case ReadCode => [WaitDone(c, s.shared.info.exitCode, s.clients[c].pc.err)]
    case _ => []
  }

  /** The constructor's trigger is not exported, so clients register others. */
  predicate SectionEnabled(x: Section) {
    x.RegisteringTrigger? ==> x.trigger.User?
  }

  function SectionUpdate(sh: Shared, x: Section): Shared {
    match x
    case RegisteringTrigger(t) => RegisterTrigger(sh, t)
    case RegisteringSignalTrigger(h) => RegisterSignalTrigger(sh, h)
    case Tagging(tag) => Tag(sh, tag)
    case ResettingTags => ResetTags(sh)
  }

  function SectionEmit(sh: Shared, x: Section): Log {
    match x
    case RegisteringTrigger(t) => [if sh.info.complete then Refused(t) else Accepted(t)]
    case RegisteringSignalTrigger(h) => if sh.info.complete then [] else [SignalTriggerAccepted(h)]
    case Tagging(tag) => [Tagged(tag)]
    case ResettingTags => [TagsReset]
  }

  predicate Enabled(s: State, a: Action) {
    match a
    case CancelContext => true
    case Exit(e) => ExitEnabled(s, e)
    case React(r) => ReactorEnabled(s, r)
    case Operate(o) => OperationEnabled(s, o)
    case Call(c, p) => CallEnabled(s, c, p)
    case Lock(x) => SectionEnabled(x)
  }

  function Update(s: State, a: Action): State
    requires Enabled(s, a)
  {
    match a
    case CancelContext => s.(ctxDone := true)
    case Exit(e) => ExitUpdate(s, e)
    case React(r) => ReactorUpdate(s, r)
    case Operate(o) => OperationUpdate(s, o)
    case Call(c, p) => CallUpdate(s, c, p)
    case Lock(x) => s.(shared := SectionUpdate(s.shared, x))
  }

  /** The events that an action adds to the history. */
  function Emit(s: State, a: Action): Log
    requires Enabled(s, a)
  {
    match a
    case CancelContext => []
    case Exit(e) => ExitEmit(e)
    case React(r) => ReactorEmit(s, r)
    case Operate(o) => OperationEmit(s, o)
    case Call(c, p) => CallEmit(s, c, p)
    case Lock(x) => SectionEmit(s.shared, x)
  }

  function Next(s: State, a: Action): State
    requires Enabled(s, a)
  {
    Update(s, a).(log := s.log + Emit(s, a))
  }

  /** `acts` is a run from `s`. */
  predicate IsRun(s: State, acts: seq<Action>)
    decreases |acts|
  {
    acts == [] || (Enabled(s, acts[0]) && IsRun(Next(s, acts[0]), acts[1..]))
  }

  /** The state at the end of a run. */
  function After(s: State, acts: seq<Action>): State
    requires IsRun(s, acts)
    decreases |acts|
  {
    if acts == [] then s else After(Next(s, acts[0]), acts[1..])
  }
}
