/** The closers of single-use options run exactly once, whichever way the process
    ends: both constructors, from resolving the options on, and every run of the
    process they start. */
module Closing {
  import opened Wrappers
  import opened Lifecycle
  import opened CreateOptions
  import opened ProcessObjects
  import Bl = Blocking
  import BlP = BlockingProofs
  import Ba = Basic
  import BaP = BasicProofs
  import Out = Output

  /** The closers that a process called so far, by its history. */
  function Called(log: Log): seq<nat> {
    Collect(log, CloserOf)
  }

  /** In every run of a blocking process: no closer is called before the trigger
      step, and each has been called exactly once, in order, when the process is
      complete, whether the executor's exit or the context ended it. */
  ghost predicate BlockingClosesOnce(start: Bl.State, closers: seq<nat>) {
    forall acts :: Bl.IsRun(start, acts) ==>
      var t := Bl.After(start, acts);
      && Called(t.log) == (if BlP.BeforeTriggers(t.reactor) then [] else closers)
      && (t.shared.info.complete ==> Called(t.log) == closers)
  }

  /** The same for the basic process. */
  ghost predicate BasicClosesOnce(start: Ba.State, closers: seq<nat>) {
    forall acts :: Ba.IsRun(start, acts) ==>
      var t := Ba.After(start, acts);
      && (BaP.Running(t.pc) ==> Called(t.log) == [])
      && (t.waitersReleased ==> Called(t.log) == closers)
  }

  lemma {:induction false} BlockingKeepsSetup(s: Bl.State, acts: seq<Bl.Action>)
    requires Bl.IsRun(s, acts)
    ensures var t := Bl.After(s, acts);
            t.cfg == s.cfg && t.initialTags == s.initialTags && t.closers == s.closers
    decreases |acts|
  {
    if acts != [] {
      BlockingKeepsSetup(Bl.Next(s, acts[0]), acts[1..]);
    }
  }

  lemma {:induction false} BasicKeepsSetup(s: Ba.State, acts: seq<Ba.Action>)
    requires Ba.IsRun(s, acts)
    ensures var t := Ba.After(s, acts);
            t.cfg == s.cfg && t.closers == s.closers
    decreases |acts|
  {
    if acts != [] {
      BasicKeepsSetup(Ba.Next(s, acts[0]), acts[1..]);
    }
  }

  lemma BlockingCloses(cfg: Config, tags: seq<string>, closers: seq<nat>)
    ensures BlockingClosesOnce(Bl.Init(cfg, tags, closers), closers)
  {
    var start := Bl.Init(cfg, tags, closers);
    forall acts | Bl.IsRun(start, acts)
      ensures var t := Bl.After(start, acts);
              && Called(t.log) == (if BlP.BeforeTriggers(t.reactor) then [] else closers)
              && (t.shared.info.complete ==> Called(t.log) == closers)
    {
      BlockingKeepsSetup(start, acts);
      BlP.OptionsClosedOnce(Bl.After(start, acts));
    }
  }

  lemma BasicCloses(cfg: Config, tags: seq<string>, closers: seq<nat>)
    ensures BasicClosesOnce(Ba.Init(cfg, tags, closers), closers)
  {
    var start := Ba.Init(cfg, tags, closers);
    forall acts | Ba.IsRun(start, acts)
      ensures var t := Ba.After(start, acts);
              && (BaP.Running(t.pc) ==> Called(t.log) == [])
              && (t.waitersReleased ==> Called(t.log) == closers)
    {
      BasicKeepsSetup(start, acts);
      assert BaP.EndsIn(tags, acts, Ba.After(start, acts));
      BaP.OptionsClosedOnce(Ba.After(start, acts));
    }
  }

  // ----- the constructors

  /** What the environment answers while a process is being constructed. */
  datatype World = World(cancelled: bool, othersOk: bool, up: bool, executorOk: bool, outputOk: bool, starts: bool,
                         windows: bool, deadline: int, failing: set<nat>)

  /** The options resolve. */
  predicate Resolves(t: Timeouts, w: World) {
    !w.cancelled && w.othersOk && Accepts(t) && w.executorOk && w.outputOk
  }

  function Setup(opts: Create, w: World): Config
    reads opts
  {
    Config(w.windows, if opts.timeouts.timeout > 0 then Some(w.deadline) else None)
  }

  function TagsOf(opts: Create): seq<string>
    reads opts, opts.tags
  {
    if opts.tags == null then [] else opts.tags[..]
  }

  /** The closers that options hold once resolved. */
  function ClosersAfter(before: seq<nat>, timeout: int, cancelCloser: nat, outputCloser: nat): seq<nat> {
    before + (if timeout > 0 then [cancelCloser] else []) + [outputCloser]
  }

  /** `newBlockingProcess`: from options that resolve, every closer is called
      exactly once, at once when starting fails, and otherwise in every run of the
      process that was started. */
  method NewBlocking(opts: Create, id: string, w: World, cancelCloser: nat, outputCloser: nat, rec: Recorder)
    returns (p: BlockingProcess?)
    modifies opts, opts.env, rec
    ensures p != null <==> Resolves(old(opts.timeouts), w) && w.starts
    ensures Resolves(old(opts.timeouts), w) ==>
              opts.closers == ClosersAfter(old(opts.closers), opts.timeouts.timeout, cancelCloser, outputCloser)
    ensures rec.ran == old(rec.ran) + if Resolves(old(opts.timeouts), w) && !w.starts then opts.closers else []
    ensures p != null ==>
              var start := Bl.Init(Setup(opts, w), TagsOf(opts), opts.closers);
              p.View() == start.shared && BlockingClosesOnce(start, opts.closers)
    ensures p != null ==>
              && p.info.tagList == (if opts.tags == null then [] else opts.tags[..]) && p.info.closers == opts.closers
              && (Setup(opts, w).deadline == if opts.timeouts.timeout > 0 then Some(w.deadline) else None)
              && Setup(opts, w).windows == w.windows
  {
    opts.AddEnvVar(ENVIRON_ID, id);
    var resolved := opts.Resolve(w.cancelled, w.othersOk, w.up, w.executorOk, w.outputOk, cancelCloser, outputCloser);
    if !resolved {
      return null;
    }
    if !w.starts {
      var closed := opts.Close(rec, w.failing);
      return null;
    }
    p := new BlockingProcess(Setup(opts, w), TagsOf(opts), opts.closers);
    BlockingCloses(Setup(opts, w), TagsOf(opts), opts.closers);
  }

  /** `newBasicProcess` likewise; unlike the other constructor it also closes the
      executor that it could not start. */
  method NewBasic(opts: Create, id: string, w: World, cancelCloser: nat, outputCloser: nat, rec: Recorder)
    returns (p: BasicProcess?, executorClosed: bool)
    modifies opts, opts.env, rec
    ensures p != null <==> Resolves(old(opts.timeouts), w) && w.starts
    ensures executorClosed <==> Resolves(old(opts.timeouts), w) && !w.starts
    ensures Resolves(old(opts.timeouts), w) ==>
              opts.closers == ClosersAfter(old(opts.closers), opts.timeouts.timeout, cancelCloser, outputCloser)
    ensures rec.ran == old(rec.ran) + if Resolves(old(opts.timeouts), w) && !w.starts then opts.closers else []
    ensures p != null ==>
              var start := Ba.Init(Setup(opts, w), TagsOf(opts), opts.closers);
              p.info == start.info && p.triggers == start.triggers && BasicClosesOnce(start, opts.closers)
    ensures p != null ==>
              && p.info.tagList == (if opts.tags == null then [] else opts.tags[..]) && p.info.closers == opts.closers
              && (Setup(opts, w).deadline == if opts.timeouts.timeout > 0 then Some(w.deadline) else None)
              && Setup(opts, w).windows == w.windows
  {
    executorClosed := false;
    opts.AddEnvVar(ENVIRON_ID, id);
    var resolved := opts.Resolve(w.cancelled, w.othersOk, w.up, w.executorOk, w.outputOk, cancelCloser, outputCloser);
    if !resolved {
      return null, false;
    }
    if !w.starts {
      var closed := opts.Close(rec, w.failing);
      return null, true;
    }
    p := new BasicProcess(TagsOf(opts), opts.closers);
    BasicCloses(Setup(opts, w), TagsOf(opts), opts.closers);
  }

  // ----- the loggers' senders

  /** The senders that calling these closers closes: the output's closer closes the
      loggers' senders, the others none. */
  function SendersClosed(called: seq<nat>, outputCloser: nat, senders: seq<nat>): seq<nat> {
    if called == [] then []
    else
      var n := |called| - 1;
      SendersClosed(called[..n], outputCloser, senders) + if called[n] == outputCloser then senders else []
  }

  lemma {:induction false} OthersCloseNone(called: seq<nat>, outputCloser: nat, senders: seq<nat>)
    requires outputCloser !in called
    ensures SendersClosed(called, outputCloser, senders) == []
  {
    if called != [] {
      OthersCloseNone(called[..|called| - 1], outputCloser, senders);
    }
  }

  /** Resolving registers the output's closer once, so calling each closer once
      closes the senders once. */
  lemma ClosersCloseOnce(before: seq<nat>, timeout: int, cancelCloser: nat, outputCloser: nat, senders: seq<nat>)
    requires outputCloser !in before && outputCloser != cancelCloser
    ensures SendersClosed(ClosersAfter(before, timeout, cancelCloser, outputCloser), outputCloser, senders) == senders
  {
    var others := before + if timeout > 0 then [cancelCloser] else [];
    OthersCloseNone(others, outputCloser, senders);
    assert (others + [outputCloser])[..|others|] == others;
  }

  /** Calls closers as a process does, with `Output.Close` behind the output's. */
  method CallOutputCloser(called: seq<nat>, outputCloser: nat, o: Out.Output)
    requires o.Valid() && o.Acceptable(true) && o.OutputSettled() && o.ErrorSettled()
    requires o.OutputLogging() || o.ErrorLogging()
    modifies o`writersClosed, o.factory`closed
    ensures o.factory.closed == old(o.factory.closed) + SendersClosed(called, outputCloser, Out.Senders(o.loggers))
  {
    hide Out.Output.Valid, Out.Output.Acceptable, Out.Output.OutputSettled, Out.Output.ErrorSettled;
    hide Out.Output.OutputLogging, Out.Output.ErrorLogging, Out.Senders;
    for i := 0 to |called|
      invariant o.Valid()
      invariant o.factory.closed ==
                old(o.factory.closed) + SendersClosed(called[..i], outputCloser, Out.Senders(o.loggers))
    {
      assert called[..i + 1][..i] == called[..i];
      if called[i] == outputCloser {
        o.Close();
      }
    }
    assert called[..|called|] == called;
  }

  /** A sender is closed once more than before. */
  ghost predicate ClosedOnceMore(before: seq<nat>, after: seq<nat>, sender: nat) {
    Out.Times(sender, after) == Out.Times(sender, before) + 1
  }

  lemma SendersOnce(o: Out.Output, before: seq<nat>, l: Out.Logger)
    requires Out.AsOftenAsListed(o.loggers) && Out.Distinct(o.loggers) && l in o.loggers
    ensures l.sender.Some? && ClosedOnceMore(before, before + Out.Senders(o.loggers), l.sender.value)
  {
    Out.OnceInDistinct(o.loggers, l);
  }

  /** Calls closers that are none yet, or all that resolving leaves. */
  method CloseLoggers(called: seq<nat>, before: seq<nat>, timeout: int, cancelCloser: nat, outputCloser: nat, o: Out.Output)
    requires outputCloser !in before && outputCloser != cancelCloser
    requires o.Valid() && o.Acceptable(true) && o.OutputSettled() && o.ErrorSettled()
    requires (o.OutputLogging() || o.ErrorLogging()) && Out.Distinct(o.loggers)
    modifies o`writersClosed, o.factory`closed
    ensures called == [] ==> o.factory.closed == old(o.factory.closed)
    ensures called == ClosersAfter(before, timeout, cancelCloser, outputCloser) ==>
              forall l :: l in o.loggers ==>
                l.sender.Some? && ClosedOnceMore(old(o.factory.closed), o.factory.closed, l.sender.value)
  {
    hide ClosedOnceMore, SendersClosed, Out.AsOftenAsListed, Out.Senders, Out.Output.Valid, Out.Output.Acceptable;
    hide Out.Output.OutputSettled, Out.Output.ErrorSettled, Out.Output.OutputLogging, Out.Output.ErrorLogging;
    ghost var senders, closed := Out.Senders(o.loggers), o.factory.closed;
    ClosersCloseOnce(before, timeout, cancelCloser, outputCloser, senders);
    OthersCloseNone([], outputCloser, senders);
    o.ClosesOneOfThem();
    CallOutputCloser(called, outputCloser, o);
    forall l | l in o.loggers
      ensures l.sender.Some? && ClosedOnceMore(closed, closed + senders, l.sender.value)
    {
      SendersOnce(o, closed, l);
    }
  }

  /** The loggers' senders at any point `s` of a run of a blocking process that was
      started with the closers that resolving leaves: none has been closed before the
      trigger step, and each has been closed exactly once when the process is
      complete, provided that no logger is listed twice and that the loggers are not
      shared with other options. */
  method BlockingClosesLoggers(s: Bl.State, before: seq<nat>, timeout: int, cancelCloser: nat, outputCloser: nat,
                               o: Out.Output)
    requires BlP.Reachable(s) && s.closers == ClosersAfter(before, timeout, cancelCloser, outputCloser)
    requires outputCloser !in before && outputCloser != cancelCloser
    requires o.Valid() && o.Acceptable(true) && o.OutputSettled() && o.ErrorSettled()
    requires (o.OutputLogging() || o.ErrorLogging()) && Out.Distinct(o.loggers)
    modifies o`writersClosed, o.factory`closed
    ensures BlP.BeforeTriggers(s.reactor) ==> o.factory.closed == old(o.factory.closed)
    ensures s.shared.info.complete ==>
              forall l :: l in o.loggers ==>
                l.sender.Some? && ClosedOnceMore(old(o.factory.closed), o.factory.closed, l.sender.value)
  {
    BlP.OptionsClosedOnce(s);
    hide BlP.Reachable, ClosedOnceMore, Out.Output.Valid, Out.Output.Acceptable;
    CloseLoggers(Called(s.log), before, timeout, cancelCloser, outputCloser, o);
  }

  /** The same for a basic process: none while it runs, each once when the waiters
      are released. */
  method BasicClosesLoggers(s: Ba.State, before: seq<nat>, timeout: int, cancelCloser: nat, outputCloser: nat,
                            o: Out.Output)
    requires BaP.Reachable(s) && s.closers == ClosersAfter(before, timeout, cancelCloser, outputCloser)
    requires outputCloser !in before && outputCloser != cancelCloser
    requires o.Valid() && o.Acceptable(true) && o.OutputSettled() && o.ErrorSettled()
    requires (o.OutputLogging() || o.ErrorLogging()) && Out.Distinct(o.loggers)
    modifies o`writersClosed, o.factory`closed
    ensures BaP.Running(s.pc) ==> o.factory.closed == old(o.factory.closed)
    ensures s.waitersReleased ==>
              forall l :: l in o.loggers ==>
                l.sender.Some? && ClosedOnceMore(old(o.factory.closed), o.factory.closed, l.sender.value)
  {
    BaP.OptionsClosedOnce(s);
    hide BaP.Reachable, ClosedOnceMore, Out.Output.Valid, Out.Output.Acceptable;
    CloseLoggers(Called(s.log), before, timeout, cancelCloser, outputCloser, o);
  }
}
