/** What a history holds of one client's operation on a signal, as the operation
    goes on while other participants add events of their own. */
module Signals {
  import opened Wrappers
  import opened Lifecycle

  /** How far a client's operation on a signal is; `Plain` is an operation of
      another kind. */
  datatype Stage = Idle | Plain | Underway(hooks: seq<nat>, verdicts: seq<bool>)
    | Over(sig: int, answer: Option<bool>)

  /** What a history then holds of it. */
  ghost predicate InStage(log: Log, c: nat, stage: Stage) {
    match stage
    case Idle => Service(log, c) == []
    case Plain => forall e :: e in Service(log, c) ==> e == OperationStarted(c)
    case Underway(hooks, verdicts) =>
      && HooksRead(log, c) == Some(hooks)
      && |verdicts| <= |hooks|
      && Service(log, c) == Begun(c, hooks, verdicts)
    case Over(sig, answer) => IsServed(log, c, sig, answer)
  }

  lemma NoServiceNotStarted(log: Log, c: nat)
    requires Service(log, c) == []
    ensures OperationStarted(c) !in log && HooksRead(log, c).None?
  {
    if OperationStarted(c) in log {
      var j :| 0 <= j < |log| && log[j] == OperationStarted(c);
      CollectHas(log, ServiceOf(c), j);
    }
    NeverStarted(log, c);
  }

  /** Events that are not about a client's operation keep its stage. */
  lemma StageKept(log: Log, evs: Log, c: nat, stage: Stage)
    requires InStage(log, c, stage) && forall e :: e in evs ==> ServiceOf(c)(e).None?
    ensures InStage(log + evs, c, stage)
    ensures OperationStarted(c) in log + evs <==> OperationStarted(c) in log
  {
    CollectConcat(log, evs, ServiceOf(c));
    CollectNothing(evs, ServiceOf(c));
    assert Service(log + evs, c) == Service(log, c);
    assert ServiceOf(c)(OperationStarted(c)).Some?;
    HooksReadKept(log, evs, c);
  }

  lemma ServiceSnoc(log: Log, c: nat, e: Event)
    ensures Service(log + [e], c) == Service(log, c) + if ServiceOf(c)(e).Some? then [e] else []
  {
    assert (log + [e])[..|log + [e]| - 1] == log;
  }

  lemma PlainStarts(log: Log, c: nat, rest: Log)
    requires InStage(log, c, Plain) && forall e :: e in rest ==> ServiceOf(c)(e).None?
    ensures InStage(log + ([OperationStarted(c)] + rest), c, Plain)
  {
    ServiceSnoc(log, c, OperationStarted(c));
    StageKept(log + [OperationStarted(c)], rest, c, Plain);
    assert log + ([OperationStarted(c)] + rest) == log + [OperationStarted(c)] + rest;
  }

  lemma NoneBegun(c: nat, hooks: seq<nat>)
    ensures Begun(c, hooks, []) == [OperationStarted(c)]
  {
  }

  lemma ReadAtStart(log: Log, c: nat)
    requires Service(log, c) == []
    ensures Service(log + [OperationStarted(c)], c) == [OperationStarted(c)]
    ensures HooksRead(log + [OperationStarted(c)], c) == Some(Collect(log, HookOf))
  {
    hide Collect, HooksRead, Service;
    var after := log + [OperationStarted(c)];
    NoServiceNotStarted(log, c);
    ServiceSnoc(log, c, OperationStarted(c));
    assert after[..|log|] == log;
    HooksReadAt(after, c, |log|);
  }

  lemma HooksAreRead(log: Log, c: nat)
    requires InStage(log, c, Idle)
    ensures InStage(log + [OperationStarted(c)], c, Underway(Collect(log, HookOf), []))
  {
    hide Collect, HooksRead, Service, Begun;
    ReadAtStart(log, c);
    NoneBegun(c, Collect(log, HookOf));
  }

  lemma HookRuns(log: Log, c: nat, hooks: seq<nat>, verdicts: seq<bool>, skip: bool)
    requires InStage(log, c, Underway(hooks, verdicts)) && |verdicts| < |hooks|
    ensures InStage(log + [SignalTriggerRan(c, hooks[|verdicts|], skip)], c, Underway(hooks, verdicts + [skip]))
  {
    hide Collect, HooksRead;
    var n := |verdicts|;
    var e := SignalTriggerRan(c, hooks[n], skip);
    ServiceSnoc(log, c, e);
    HooksReadKept(log, [e], c);
    assert hooks[..n + 1] == hooks[..n] + [hooks[n]];
    assert Begun(c, hooks, verdicts + [skip]) == Begun(c, hooks, verdicts) + [e];
  }

  lemma SignalGoesOut(log: Log, c: nat, hooks: seq<nat>, verdicts: seq<bool>, sig: int, failed: bool)
    requires InStage(log, c, Underway(hooks, verdicts)) && |verdicts| == |hooks| && true !in verdicts
    ensures InStage(log + [SignalCall(c, sig, failed)], c, Over(sig, Some(failed)))
  {
    ServiceSnoc(log, c, SignalCall(c, sig, failed));
    HooksReadKept(log, [SignalCall(c, sig, failed)], c);
    assert Service(log + [SignalCall(c, sig, failed)], c) == Served(c, hooks, verdicts, sig, Some(failed));
  }

  lemma SignalIsSkipped(log: Log, c: nat, hooks: seq<nat>, verdicts: seq<bool>, sig: int)
    requires InStage(log, c, Underway(hooks, verdicts)) && |verdicts| == |hooks| && true in verdicts
    ensures InStage(log, c, Over(sig, None))
  {
    assert Service(log, c) == Served(c, hooks, verdicts, sig, None);
  }

  lemma ServiceHas(log: Log, c: nat, e: Event)
    ensures e in Service(log, c) <==> e in log && ServiceOf(c)(e).Some?
  {
    if e in Service(log, c) {
      var j := CollectFrom(log, ServiceOf(c), e);
    }
    if e in log && ServiceOf(c)(e).Some? {
      var j :| 0 <= j < |log| && log[j] == e;
      CollectHas(log, ServiceOf(c), j);
    }
  }

  lemma NothingServed(log: Log, c: nat)
    requires Service(log, c) == []
    ensures !SentOrSkipped(log, c)
  {
    if sig :| SignalCall(c, sig, false) in log {
      ServiceHas(log, c, SignalCall(c, sig, false));
    }
    if hook :| SignalTriggerRan(c, hook, true) in log {
      ServiceHas(log, c, SignalTriggerRan(c, hook, true));
    }
  }

  lemma ServedHas(c: nat, hooks: seq<nat>, verdicts: seq<bool>, sig: int, answer: Option<bool>, e: Event)
    requires |verdicts| == |hooks|
    ensures e in Served(c, hooks, verdicts, sig, answer) <==>
              || e == OperationStarted(c)
              || (exists i :: 0 <= i < |hooks| && e == SignalTriggerRan(c, hooks[i], verdicts[i]))
              || (answer.Some? && e == SignalCall(c, sig, answer.value))
  {
    var ran := HooksRan(c, hooks, verdicts);
    assert hooks[..|verdicts|] == hooks;
    assert e in ran <==> exists i :: 0 <= i < |hooks| && e == SignalTriggerRan(c, hooks[i], verdicts[i]) by {
      if i :| 0 <= i < |hooks| && e == SignalTriggerRan(c, hooks[i], verdicts[i]) {
        assert ran[i] == e;
      }
    }
  }

  /** What a finished operation has to say: all is well exactly if the executor took
      the signal or a trigger asked to skip it. */
  lemma ServedWell(log: Log, c: nat, sig: int, answer: Option<bool>)
    requires IsServed(log, c, sig, answer)
    ensures SentOrSkipped(log, c) <==> answer != Some(true)
    ensures forall sig', failed :: SignalCall(c, sig', failed) in log <==> sig' == sig && answer == Some(failed)
  {
    hide Service, HooksRead, Served;
    var hooks := HooksRead(log, c).value;
    var verdicts :|
      && |verdicts| == |hooks| && Service(log, c) == Served(c, hooks, verdicts, sig, answer)
      && (answer.None? <==> true in verdicts);
    forall sig', failed
      ensures SignalCall(c, sig', failed) in log <==> sig' == sig && answer == Some(failed)
    {
      ServiceHas(log, c, SignalCall(c, sig', failed));
      ServedHas(c, hooks, verdicts, sig, answer, SignalCall(c, sig', failed));
    }
    if true in verdicts {
      var i :| 0 <= i < |verdicts| && verdicts[i];
      ServedHas(c, hooks, verdicts, sig, answer, SignalTriggerRan(c, hooks[i], true));
      ServiceHas(log, c, SignalTriggerRan(c, hooks[i], true));
      assert SentOrSkipped(log, c);
    } else {
      forall hook ensures SignalTriggerRan(c, hook, true) !in log {
        ServiceHas(log, c, SignalTriggerRan(c, hook, true));
        ServedHas(c, hooks, verdicts, sig, answer, SignalTriggerRan(c, hook, true));
      }
      assert SentOrSkipped(log, c) <==> SignalCall(c, sig, false) in log;
      assert answer == Some(answer.value);
      if answer.value {
        assert answer == Some(true);
      } else {
        assert answer == Some(false);
      }
    }
  }

  lemma UnderwayJustifies(log: Log, c: nat, hooks: seq<nat>, verdicts: seq<bool>)
    requires InStage(log, c, Underway(hooks, verdicts)) && |verdicts| == |hooks| && true !in verdicts
    ensures SignalJustified(log, c)
  {
    NotSkippedMeansNoneSkipped(c, hooks, verdicts);
    assert hooks[..|verdicts|] == hooks;
  }

  lemma SignalCallAdmissible(log: Log, c: nat, sig: int, failed: bool, stage: Stage)
    requires InStage(log, c, stage) && stage.Underway? && |stage.verdicts| == |stage.hooks| && true !in stage.verdicts
    requires Published !in log && CloseCall !in log
    ensures Admissible(log, SignalCall(c, sig, failed))
  {
    UnderwayJustifies(log, c, stage.hooks, stage.verdicts);
  }

  lemma QuietAdmissible(log: Log, e: Event)
    requires Published !in log && CloseCall !in log
    requires e.OperationStarted? || e.SignalTriggerRan? || e.PidCall? || e == Observed(false)
    ensures Admissible(log, e)
  {
  }

  /** The signal that a history holds for a client. */
  lemma SignalInStage(log: Log, c: nat, sig: int, failed: bool, stage: Stage)
    requires InStage(log, c, stage) && SignalCall(c, sig, failed) in log
    ensures stage == Over(sig, Some(failed))
  {
    hide Collect, HooksRead;
    var j :| 0 <= j < |log| && log[j] == SignalCall(c, sig, failed);
    CollectHas(log, ServiceOf(c), j);
    assert SignalCall(c, sig, failed) in Service(log, c);
  }

  lemma ServedWithSignal(c: nat, hooks: seq<nat>, verdicts: seq<bool>, sig: int, failed: bool)
    requires |verdicts| == |hooks| && true !in verdicts
    ensures Served(c, hooks, verdicts, sig, Some(failed))
            == [OperationStarted(c)] + NoneSkipped(c, hooks) + [SignalCall(c, sig, failed)]
  {
    NotSkippedMeansNoneSkipped(c, hooks, verdicts);
    assert hooks[..|verdicts|] == hooks;
  }

  lemma ServiceEnds(log: Log, c: nat, sig: int, failed: bool, j: nat)
    requires j < |log| && log[j] == SignalCall(c, sig, failed)
    requires IsServed(log, c, sig, Some(failed)) && SignalJustified(log[..j], c)
    ensures Service(log, c) == Service(log[..j], c) + [log[j]]
  {
    hide Served, HooksRead;
    assert log == log[..j] + log[j..];
    HooksReadKept(log[..j], log[j..], c);
    var hooks := HooksRead(log, c).value;
    var verdicts :|
      |verdicts| == |hooks| && Service(log, c) == Served(c, hooks, verdicts, sig, Some(failed)) && true !in verdicts;
    ServedWithSignal(c, hooks, verdicts, sig, failed);
  }

  lemma NotInNoneSkipped(e: Event, c: nat, hooks: seq<nat>)
    ensures e.SignalCall? ==> e !in [OperationStarted(c)] + NoneSkipped(c, hooks)
  {
  }

  lemma AtMostOnce(log: Log, i: nat, j: nat)
    requires SignalsJustified(log) && i < j < |log| && log[i].SignalCall? && log[j].SignalCall?
    ensures log[i].client != log[j].client
  {
    var c := log[j].client;
    if log[i].client == c {
      assert log[..j][i] == log[i];
      CollectHas(log[..j], ServiceOf(c), i);
      NotInNoneSkipped(log[i], c, HooksRead(log[..j], c).value);
    }
  }

  lemma HooksIn(log: Log)
    ensures Collect(log, HookOf) == [] <==> forall e :: e in log ==> !e.SignalTriggerAccepted?
  {
    if forall e :: e in log ==> !e.SignalTriggerAccepted? {
      CollectNothing(log, HookOf);
    } else {
      var e :| e in log && e.SignalTriggerAccepted?;
      var j :| 0 <= j < |log| && log[j] == e;
      CollectHas(log, HookOf, j);
    }
  }

  lemma NoneSkippedInjective(c: nat, a: seq<nat>, b: seq<nat>)
    requires NoneSkipped(c, a) == NoneSkipped(c, b)
    ensures a == b
  {
    assert |NoneSkipped(c, a)| == |a| && |NoneSkipped(c, b)| == |b|;
    forall i | 0 <= i < |a| ensures a[i] == b[i] {
      assert NoneSkipped(c, a)[i] == NoneSkipped(c, b)[i];
    }
  }
}
