/** The process objects themselves: the critical sections of their methods and
    the trigger sequences they run, each proved to be the step that the transition
    systems of modules `Blocking` and `Basic` take. */
module ProcessObjects {
  import opened Wrappers
  import opened Lifecycle
  import Bl = Blocking
  import Ba = Basic

  /** `ProcessTriggerSequence.Run`: every trigger, once, in order; the constructors'
      own trigger calls every closer of the options it is told of. */
  method RunTriggers(triggers: seq<Trigger>, closers: seq<nat>) returns (ran: Log)
    ensures ran == RanAll(triggers, closers)
  {
    ran := [];
    for i := 0 to |triggers|
      invariant ran == RanAll(triggers[..i], closers)
    {
      assert triggers[..i + 1][..i] == triggers[..i];
      ran := ran + [Ran(triggers[i])];
      if triggers[i].OptionsClose? {
        var called := CallClosers(closers);
        ran := ran + called;
      }
    }
    assert triggers[..|triggers|] == triggers;
  }

  method CallClosers(closers: seq<nat>) returns (called: Log)
    ensures called == ClosersRan(closers)
  {
    called := [];
    for i := 0 to |closers|
      invariant called == ClosersRan(closers[..i])
    {
      called := called + [CloserRan(closers[i])];
    }
    assert closers[..|closers|] == closers;
  }

  /** `SignalTriggerSequence.Run`: every signal trigger runs, also after one has
      asked to skip, and the signal is skipped iff one of them asked.  `verdicts`
      is what each trigger answers. */
  method RunSignalTriggers(client: nat, hooks: seq<nat>, verdicts: seq<bool>) returns (skip: bool, ran: Log)
    requires |verdicts| == |hooks|
    ensures skip <==> true in verdicts
    ensures ran == HooksRan(client, hooks, verdicts)
    ensures !skip ==> ran == NoneSkipped(client, hooks)
  {
    skip, ran := false, [];
    for i := 0 to |hooks|
      invariant ran == HooksRan(client, hooks[..i], verdicts[..i])
      invariant skip <==> true in verdicts[..i]
    {
      assert verdicts[..i + 1] == verdicts[..i] + [verdicts[i]];
      ran := ran + [SignalTriggerRan(client, hooks[i], verdicts[i])];
      skip := verdicts[i] || skip;
    }
    assert hooks[..|hooks|] == hooks && verdicts[..|verdicts|] == verdicts;
    NotSkippedMeansNoneSkipped(client, hooks, verdicts);
  }

  class BlockingProcess {
    var info: Info
    var err: Option<Error>
    var triggers: seq<Trigger>
    var signalTriggers: seq<nat>
    var tags: set<string>

    function View(): Bl.Shared
      reads this
    {
      Bl.Shared(info, err, triggers, signalTriggers, tags)
    }

    constructor (cfg: Config, tagList: seq<string>, closers: seq<nat>)
      ensures View() == Bl.Init(cfg, tagList, closers).shared
    {
      info := Started(tagList, closers);
      err, triggers, signalTriggers := None, [OptionsClose], [];
      var seen: set<string> := {};
      for i := 0 to |tagList|
        invariant seen == set x | x in tagList[..i]
      {
        assert tagList[..i + 1] == tagList[..i] + [tagList[i]];
        seen := seen + {tagList[i]};
      }
      assert tagList[..|tagList|] == tagList;
      tags := seen;
    }

    method RegisterTrigger(t: Option<Trigger>) returns (ok: bool)
      modifies this`triggers
      ensures ok <==> t.Some? && !info.complete
      ensures View() == if t.Some? then Bl.SectionUpdate(old(View()), Bl.RegisteringTrigger(t.value)) else old(View())
      ensures t.Some? ==>
                Bl.SectionEmit(old(View()), Bl.RegisteringTrigger(t.value)) == [if ok then Accepted(t.value) else Refused(t.value)]
    {
      if t.None? {
        return false;
      }
      if info.complete {
        return false;
      }
      triggers := triggers + [t.value];
      return true;
    }

    method RegisterSignalTrigger(h: Option<nat>) returns (ok: bool)
      modifies this`signalTriggers
      ensures ok <==> h.Some? && !info.complete
      ensures View() == if h.Some? then Bl.SectionUpdate(old(View()), Bl.RegisteringSignalTrigger(h.value)) else old(View())
    {
      if h.None? || info.complete {
        return false;
      }
      signalTriggers := signalTriggers + [h.value];
      return true;
    }

    /** Every tag once, in no particular order. */
    method GetTags() returns (out: seq<string>)
      ensures forall x :: x in out <==> x in tags
      ensures |out| == |tags|
    {
      out := [];
      var rest := tags;
      while rest != {}
        invariant rest <= tags
        invariant forall x :: x in out <==> x in tags && x !in rest
        invariant |out| + |rest| == |tags|
        decreases rest
      {
        var x :| x in rest;
        out := out + [x];
        rest := rest - {x};
      }
    }

    /** The reactor's first critical section on exit: `EndAt` is written to the
        shared information, the rest to the reactor's own copy.  It is the snapshot
        step of every state with this object's fields in which the exit was received. */
    method SnapshotOnExit(cfg: Config, r: ExitReport, now: int) returns (snapshot: Info, calls: Log)
      modifies this`info
      ensures View() == old(View()).(info := old(info).(endAt := now))
      ensures snapshot == Finished(old(info), cfg, r, now)
      ensures snapshot.complete && !snapshot.isRunning && snapshot.successful == r.success && snapshot.endAt == now
      ensures r.signal.Some? ==> snapshot.exitCode == r.signal.value
      ensures r.signal.None? ==> snapshot.exitCode == r.exitCode
      ensures !old(info).timeout ==>
                (snapshot.timeout <==>
                   && cfg.deadline.Some? && now > cfg.deadline.value
                   && if r.signal.Some? then r.signal.value == 9 else cfg.windows && r.exitCode == 1)
      ensures calls == [SuccessCall, SignalInfoCall] + if r.signal.Some? then [] else [ExitCodeCall]
      ensures forall s: Bl.State ::
                s.shared == old(View()) && s.cfg == cfg && s.reactor.Received? && s.report == Some(r) ==>
                  && Bl.ReactorEnabled(s, Bl.Snapshot(now))
                  && Bl.ReactorUpdate(s, Bl.Snapshot(now)) == s.(shared := View(), reactor := Bl.Snapped(snapshot, s.reactor.err))
                  && Bl.ReactorEmit(s, Bl.Snapshot(now)) == calls
    {
      info := info.(endAt := now);
      snapshot := info.(complete := true, isRunning := false, successful := r.success);
      calls := [SuccessCall, SignalInfoCall];
      if r.signal.Some? {
        snapshot := snapshot.(exitCode := r.signal.value);
        if cfg.deadline.Some? {
          snapshot := snapshot.(timeout := r.signal.value == SIGKILL && now > cfg.deadline.value);
        }
      } else {
        calls := calls + [ExitCodeCall];
        snapshot := snapshot.(exitCode := r.exitCode);
        if cfg.windows && cfg.deadline.Some? {
          snapshot := snapshot.(timeout := r.exitCode == 1 && now > cfg.deadline.value);
        }
      }
    }
  }

  class BasicProcess {
    var info: Info
    var err: Option<Error>
    var triggers: seq<Trigger>
    var waitersReleased: bool

    constructor (tagList: seq<string>, closers: seq<nat>)
      ensures info == Started(tagList, closers) && err == None
      ensures triggers == [OptionsClose] && !waitersReleased
    {
      info := Started(tagList, closers);
      err, triggers, waitersReleased := None, [OptionsClose], false;
    }

    /** What `finish` writes of the executor's report, and what it asks for it. */
    method WriteReport(cfg: Config, r: ExitReport, now: int) returns (calls: Log)
      modifies this`info
      ensures info == Finished(old(info), cfg, r, now) && calls == Ba.ReportCalls(r)
      ensures calls == [SignalInfoCall] + (if r.signal.None? then [ExitCodeCall] else []) + [SuccessCall]
      ensures info.complete && !info.isRunning && info.successful == r.success && info.endAt == now
      ensures r.signal.Some? ==> info.exitCode == r.signal.value
      ensures r.signal.None? ==> info.exitCode == r.exitCode
      ensures !old(info).timeout ==>
                (info.timeout <==>
                   && cfg.deadline.Some? && now > cfg.deadline.value
                   && if r.signal.Some? then r.signal.value == 9 else cfg.windows && r.exitCode == 1)
    {
      info := info.(endAt := now, isRunning := false, complete := true);
      calls := [SignalInfoCall];
      if r.signal.Some? {
        info := info.(exitCode := r.signal.value);
        if cfg.deadline.Some? {
          info := info.(timeout := r.signal.value == SIGKILL && now > cfg.deadline.value);
        }
      } else {
        calls := calls + [ExitCodeCall];
        info := info.(exitCode := r.exitCode);
        if cfg.windows && cfg.deadline.Some? {
          info := info.(timeout := r.exitCode == 1 && now > cfg.deadline.value);
        }
      }
      info := info.(successful := r.success);
      calls := calls + [SuccessCall];
    }

    /** `finish`: the fields are set, the executor is asked, every trigger runs,
        and only then are the waiters released. */
    method Finish(cfg: Config, r: ExitReport, now: int) returns (events: Log)
      modifies this`info, this`err, this`waitersReleased
      ensures info == Finished(old(info), cfg, r, now) && err == r.err && waitersReleased
      ensures info.complete && !info.isRunning && info.successful == r.success && info.endAt == now
      ensures r.signal.Some? ==> info.exitCode == r.signal.value
      ensures r.signal.None? ==> info.exitCode == r.exitCode
      ensures !old(info).timeout ==>
                (info.timeout <==>
                   && cfg.deadline.Some? && now > cfg.deadline.value
                   && if r.signal.Some? then r.signal.value == 9 else cfg.windows && r.exitCode == 1)
      ensures events == Ba.ReportCalls(r) + RanAll(triggers, info.closers) + [Published]
    {
      err := r.err;
      var calls := WriteReport(cfg, r, now);
      var ran := RunTriggers(triggers, info.closers);
      waitersReleased := true;
      events := calls + ran + [Published];
    }
  }
}
