/** The basic process (`process_basic.go`) as a transition system.

    The participants are the transition goroutine, the goroutine that waits for
    the executor, and any number of client calls.  `finish` holds the write lock
    from its first assignment until its deferred `Unlock`, and `Signal` holds the
    read lock; both are split into steps here, with every step of another
    participant that needs a conflicting lock held back in between, so that the
    order of what happens inside them is visible and several `Signal` calls may
    overlap.
 */
module Basic {
  import opened Wrappers
  import opened Lifecycle

  datatype ExitPc = NotStarted | Waiting | Returned(err: Option<Error>) | Delivered

  datatype Pc =
    | AwaitExit
    | Received(err: Option<Error>)
    | Finishing(done: nat)      // lock held, `done` triggers have run
    | WaitersReleased           // lock held, `waitProcessed` is closed
    | Unlocked
    | ExecutorClosed

  /** One call of `Wait`. */
  datatype WaitPc =
    | Checking
    | Selecting
    | ReadingBoth               // saw completion, reads under the lock
    | ReadingCode               // saw `waitProcessed` closed, reads without the lock
    | ReadingErr(code: int)
    | Done(code: int, err: Option<Error>)
    | Cancelled

  /** One call of `Signal`. */
  datatype SignalPc =
    | Asking(sig: int)
    | Hooking(sig: int, hooks: seq<nat>, verdicts: seq<bool>)  // read lock held, `hooks` read, some run
    | Leaving(sig: int, answer: Option<bool>)                  // read lock held, `answer` of the executor, if asked
    | Answered(sig: int, answer: Option<bool>, ok: bool)
    | TurnedAway(sig: int)                                     // the process was complete

  datatype State = State(
    cfg: Config,
    closers: seq<nat>,         // the closers of the options it was started with
    info: Info,
    err: Option<Error>,
    triggers: seq<Trigger>,
    signalTriggers: seq<nat>,
    waitersReleased: bool,
    exit: ExitPc,
    report: Option<ExitReport>,
    pc: Pc,
    waits: map<nat, WaitPc>,
    calls: map<nat, SignalPc>,
    log: Log)

  datatype ExitStep = StartWait | WaitReturns(report: ExitReport)

  datatype Step = Deliver | BeginFinish(now: int) | RunTrigger | ReleaseWaiters | Unlock | CloseExecutor

  datatype WaitStep = Begin | Check | SeeReleased | OwnCancel | ReadBoth | ReadCode | ReadErr

  datatype SignalStep = Ask(sig: int) | Acquire | RunHook(skip: bool) | Send(fails: bool) | Skip | Release

  /** Methods that are one critical section. */
  datatype Section =
    | Observing
    | RegisteringTrigger(trigger: Trigger)
    | RegisteringSignalTrigger(hook: nat)

  datatype Action =
    | Exit(exitStep: ExitStep)
    | Transition(step: Step)
    | Wait(client: nat, waitStep: WaitStep)
    | Signal(caller: nat, signalStep: SignalStep)
    | Lock(section: Section)

  function Init(cfg: Config, tags: seq<string>, closers: seq<nat>): State {
    State(cfg, closers, Started(tags, closers), None, [OptionsClose], [], false,
          NotStarted, None, AwaitExit, map[], map[], [Accepted(OptionsClose)])
  }

  /** `finish` holds the write lock. */
  predicate Locked(s: State) {
    s.pc.Finishing? || s.pc.WaitersReleased?
  }

  predicate Reading(pc: SignalPc) {
    pc.Hooking? || pc.Leaving?
  }

  /** Some `Signal` call holds the read lock. */
  predicate ReadLocked(s: State) {
    exists c :: c in s.calls && Reading(s.calls[c])
  }

  predicate ExitEnabled(s: State, e: ExitStep) {
    match e
    case StartWait => s.exit.NotStarted?
    case WaitReturns(_) => s.exit.Waiting?
  }

  function ExitUpdate(s: State, e: ExitStep): State {
    match e
    case StartWait => s.(exit := Waiting)
    case WaitReturns(r) => s.(exit := Returned(r.err), report := Some(r))
  }

  predicate StepEnabled(s: State, t: Step) {
    match t
    case Deliver => s.pc.AwaitExit? && s.exit.Returned?
    case BeginFinish(_) => s.pc.Received? && s.report.Some? && !ReadLocked(s)
    case RunTrigger => s.pc.Finishing? && s.pc.done < |s.triggers|
    case ReleaseWaiters => s.pc.Finishing? && s.pc.done == |s.triggers|
    case Unlock => s.pc.WaitersReleased?
    case CloseExecutor => s.pc.Unlocked?
  }

  function StepUpdate(s: State, t: Step): State
    requires StepEnabled(s, t)
  {
    match t
    case Deliver => s.(pc := Received(s.exit.err), exit := Delivered)
    case BeginFinish(now) =>
      s.(pc := Finishing(0), err := s.pc.err, info := Finished(s.info, s.cfg, s.report.value, now))
    case RunTrigger => s.(pc := Finishing(s.pc.done + 1))
    case ReleaseWaiters => s.(pc := WaitersReleased, waitersReleased := true)
    case Unlock => s.(pc := Unlocked)
    case CloseExecutor => s.(pc := ExecutorClosed)
  }

  /** What `finish` asks the executor. */
  function ReportCalls(r: ExitReport): Log {
    [SignalInfoCall] + (if r.signal.Some? then [] else [ExitCodeCall]) + [SuccessCall]
  }

  /** Closing `waitProcessed` is what first lets a client see the outcome. */
  function StepEmit(s: State, t: Step): Log
    requires StepEnabled(s, t)
  {
    match t
    case BeginFinish(_) => ReportCalls(s.report.value)
    case RunTrigger => RanOne(s.triggers[s.pc.done], s.info.closers)
    case ReleaseWaiters => [Published]
    case CloseExecutor => [CloseCall]
    case _ => []
  }

  predicate WaitEnabled(s: State, c: nat, w: WaitStep) {
    match w
    case Begin => c !in s.waits
    case Check => c in s.waits && s.waits[c].Checking? && !Locked(s)
    case SeeReleased => c in s.waits && s.waits[c].Selecting? && s.waitersReleased
    case OwnCancel => c in s.waits && s.waits[c].Selecting?
    case ReadBoth => c in s.waits && s.waits[c].ReadingBoth? && !Locked(s)
    case ReadCode => c in s.waits && s.waits[c].ReadingCode?
    case ReadErr => c in s.waits && s.waits[c].ReadingErr?
  }

  function WaitUpdate(s: State, c: nat, w: WaitStep): WaitPc
    requires WaitEnabled(s, c, w)
  {
    match w
    case Begin => Checking
    case Check => if s.info.isRunning then Selecting else ReadingBoth
    case SeeReleased => ReadingCode
    case OwnCancel => Cancelled
    case ReadBoth => Done(s.info.exitCode, s.err)
    case ReadCode => ReadingErr(s.info.exitCode)
    case ReadErr => Done(s.waits[c].code, s.err)
  }

  function WaitEmit(s: State, c: nat, w: WaitStep): Log
    requires WaitEnabled(s, c, w)
  {
    match w
    case Check => [Observed(!s.info.isRunning)]
    case ReadBoth => [WaitDone(c, s.info.exitCode, s.err)]
    case ReadErr => [WaitDone(c, s.waits[c].code, s.err)]
    case _ => []
  }

  predicate SignalEnabled(s: State, c: nat, g: SignalStep) {
    match g
    case Ask(_) => c !in s.calls
    case Acquire => c in s.calls && s.calls[c].Asking? && !Locked(s)
    case RunHook(_) => c in s.calls && s.calls[c].Hooking? && |s.calls[c].verdicts| < |s.calls[c].hooks|
    case Send(_) =>
      c in s.calls && s.calls[c].Hooking? && |s.calls[c].verdicts| == |s.calls[c].hooks| && true !in s.calls[c].verdicts
    case Skip =>
      c in s.calls && s.calls[c].Hooking? && |s.calls[c].verdicts| == |s.calls[c].hooks| && true in s.calls[c].verdicts
    case Release => c in s.calls && s.calls[c].Leaving?
  }

  function SignalUpdate(s: State, c: nat, g: SignalStep): SignalPc
    requires SignalEnabled(s, c, g)
  {
    match g
    case Ask(sig) => Asking(sig)
    case Acquire =>
      if s.info.complete then TurnedAway(s.calls[c].sig) else Hooking(s.calls[c].sig, s.signalTriggers, [])
    case RunHook(skip) => s.calls[c].(verdicts := s.calls[c].verdicts + [skip])
    case Send(fails) => Leaving(s.calls[c].sig, Some(fails))
    case Skip => Leaving(s.calls[c].sig, None)
    case Release => Answered(s.calls[c].sig, s.calls[c].answer, s.calls[c].answer != Some(true))
  }

  function SignalEmit(s: State, c: nat, g: SignalStep): Log
    requires SignalEnabled(s, c, g)
  {
    match g
    case Acquire => [if s.info.complete then Observed(true) else OperationStarted(c)]
    case RunHook(skip) => [SignalTriggerRan(c, s.calls[c].hooks[|s.calls[c].verdicts|], skip)]
    case Send(fails) => [SignalCall(c, MakeCompatible(s.cfg.windows, s.calls[c].sig), fails)]
    case _ => []
  }

  predicate SectionEnabled(s: State, x: Section) {
    && !Locked(s)
    && (!x.Observing? ==> !ReadLocked(s))
    && (x.RegisteringTrigger? ==> x.trigger.User?)
  }

  function SectionUpdate(s: State, x: Section): State {
    match x
    case RegisteringTrigger(t) => if s.info.complete then s else s.(triggers := s.triggers + [t])
    case RegisteringSignalTrigger(h) => if s.info.complete then s else s.(signalTriggers := s.signalTriggers + [h])
    case Observing => s
  }

  function SectionEmit(s: State, x: Section): Log {
    match x
    case Observing => [Observed(s.info.complete)]
    case RegisteringTrigger(t) => [if s.info.complete then Refused(t) else Accepted(t)]
    case RegisteringSignalTrigger(h) => if s.info.complete then [] else [SignalTriggerAccepted(h)]
  }

  predicate Enabled(s: State, a: Action) {
    match a
    case Exit(e) => ExitEnabled(s, e)
    case Transition(t) => StepEnabled(s, t)
    case Wait(c, w) => WaitEnabled(s, c, w)
    case Signal(c, g) => SignalEnabled(s, c, g)
    case Lock(x) => SectionEnabled(s, x)
  }

  function Update(s: State, a: Action): State
    requires Enabled(s, a)
  {
    match a
    case Exit(e) => ExitUpdate(s, e)
    case Transition(t) => StepUpdate(s, t)
    case Wait(c, w) => s.(waits := s.waits[c := WaitUpdate(s, c, w)])
    case Signal(c, g) => s.(calls := s.calls[c := SignalUpdate(s, c, g)])
    case Lock(x) => SectionUpdate(s, x)
  }

  function Emit(s: State, a: Action): Log
    requires Enabled(s, a)
  {
    match a
    case Exit(e) => [if e.StartWait? then WaitCall else WaitReturn]
    case Transition(t) => StepEmit(s, t)
    case Wait(c, w) => WaitEmit(s, c, w)
    case Signal(c, g) => SignalEmit(s, c, g)
    case Lock(x) => SectionEmit(s, x)
  }

  function Next(s: State, a: Action): State
    requires Enabled(s, a)
  {
    Update(s, a).(log := s.log + Emit(s, a))
  }

  predicate IsRun(s: State, acts: seq<Action>)
    decreases |acts|
  {
    acts == [] || (Enabled(s, acts[0]) && IsRun(Next(s, acts[0]), acts[1..]))
  }

  function After(s: State, acts: seq<Action>): State
    requires IsRun(s, acts)
    decreases |acts|
  {
    if acts == [] then s else After(Next(s, acts[0]), acts[1..])
  }
}
