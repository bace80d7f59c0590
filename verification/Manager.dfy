/** The managers' maps as values: what create, register, clear and completions do
    to the stored processes and to the logging cache, over every run
    (`manager_basic.go`, `manager_self_clearing.go`, `logging_cache.go`). */
module Manager {
  import opened Wrappers

  /** `procs` tells of each stored process whether it is complete; `cache` holds
      the ids of the logging cache. */
  datatype State = State(procs: map<string, bool>, cache: set<string>)

  const EMPTY := State(map[], {})

  function Done(s: State): set<string> {
    set id | id in s.procs && s.procs[id]
  }

  function Create(s: State, id: string): State {
    State(s.procs[id := false], s.cache + {id})
  }

  /** Creation of a process that may have completed before it is stored. */
  function CreateEnded(s: State, id: string, ended: bool): State {
    if ended then Complete(Create(s, id), id) else Create(s, id)
  }

  predicate Registrable(s: State, id: string, cancelled: bool) {
    !cancelled && id != "" && id !in s.procs
  }

  function Register(s: State, id: string, complete: bool, cancelled: bool): State {
    if Registrable(s, id, cancelled) then s.(procs := s.procs[id := complete]) else s
  }

  function Clear(s: State): State {
    State(s.procs - Done(s), s.cache - Done(s))
  }

  function Complete(s: State, id: string): State {
    if id in s.procs then s.(procs := s.procs[id := true]) else s
  }

  /** `checkProcCapacity`: clear when the map is exactly full. */
  function MakeRoom(s: State, maxProcs: int): State {
    if |s.procs| == maxProcs then Clear(s) else s
  }

  predicate Refused(s: State, maxProcs: int) {
    |MakeRoom(s, maxProcs).procs| == maxProcs
  }

  /** Operations of a self-clearing manager, and what happens to its processes.
      `Spawns` is a child created by a default trigger: the trigger holds the
      basic manager, so the capacity is not checked. */
  datatype Op =
    | Creates(id: string, built: bool)
    | Registers(id: string, complete: bool, cancelled: bool)
    | Clears
    | Completes(id: string)
    | Spawns(id: string)

  /** New processes have ids of their own. */
  predicate Enabled(s: State, op: Op) {
    (op.Creates? && op.built) || op.Spawns? ==> op.id != "" && op.id !in s.procs
  }

  function Next(s: State, maxProcs: int, op: Op): State {
    match op
    case Creates(id, built) =>
      var room := MakeRoom(s, maxProcs);
      if |room.procs| == maxProcs || !built then room else Create(room, id)
    case Registers(id, complete, cancelled) =>
      var room := MakeRoom(s, maxProcs);
      if |room.procs| == maxProcs then room else Register(room, id, complete, cancelled)
    case Clears => Clear(s)
    case Completes(id) => Complete(s, id)
    case Spawns(id) => Create(s, id)
  }

  predicate IsRun(s: State, maxProcs: int, ops: seq<Op>)
    decreases |ops|
  {
    ops == [] || (Enabled(s, ops[0]) && IsRun(Next(s, maxProcs, ops[0]), maxProcs, ops[1..]))
  }

  function After(s: State, maxProcs: int, ops: seq<Op>): State
    decreases |ops|
  {
    if ops == [] then s else After(Next(s, maxProcs, ops[0]), maxProcs, ops[1..])
  }

  lemma {:induction false} OneMore(s: State, maxProcs: int, ops: seq<Op>)
    requires ops != []
    ensures var n := |ops| - 1;
            && After(s, maxProcs, ops) == Next(After(s, maxProcs, ops[..n]), maxProcs, ops[n])
            && (IsRun(s, maxProcs, ops) <==> IsRun(s, maxProcs, ops[..n]) && Enabled(After(s, maxProcs, ops[..n]), ops[n]))
    decreases |ops|
  {
    if |ops| > 1 {
      var n := |ops| - 1;
      OneMore(Next(s, maxProcs, ops[0]), maxProcs, ops[1..]);
      assert ops[1..][..n - 1] == ops[..n][1..];
    }
  }

  // ----- the logging cache tracks the created processes

  datatype Origin = ByCreation | ByRegistration

  /** How an operation puts a process with this id into the map, if it does. */
  function Inserts(before: State, maxProcs: int, op: Op, id: string): Option<Origin> {
    match op
    case Creates(i, built) =>
      if i == id && built && !Refused(before, maxProcs) then Some(ByCreation) else None
    case Spawns(i) =>
      if i == id then Some(ByCreation) else None
    case Registers(i, complete, cancelled) =>
      if i == id && !Refused(before, maxProcs) && Registrable(MakeRoom(before, maxProcs), id, cancelled)
      then Some(ByRegistration) else None
    case _ => None
  }

  /** How the process with this id was last put into a manager that started
      empty. */
  function LastInsertion(maxProcs: int, ops: seq<Op>, id: string): Option<Origin>
    decreases |ops|
  {
    if ops == [] then None
    else
      var n := |ops| - 1;
      var inserted := Inserts(After(EMPTY, maxProcs, ops[..n]), maxProcs, ops[n], id);
      if inserted.Some? then inserted else LastInsertion(maxProcs, ops[..n], id)
  }

  predicate InStep(s: State) {
    s.cache <= s.procs.Keys
  }

  /** Over every run, trigger children included, the stored processes are all
      accounted for by the operations, and the cache holds exactly those that were
      last inserted by creating them rather than by registering them. */
  lemma {:induction false} CacheInStep(maxProcs: int, ops: seq<Op>)
    requires IsRun(EMPTY, maxProcs, ops)
    ensures var s := After(EMPTY, maxProcs, ops);
            && InStep(s)
            && (forall id :: id in s.procs ==> LastInsertion(maxProcs, ops, id).Some?)
            && (forall id :: id in s.cache <==> id in s.procs && LastInsertion(maxProcs, ops, id) == Some(ByCreation))
    decreases |ops|
  {
    if ops != [] {
      var n := |ops| - 1;
      OneMore(EMPTY, maxProcs, ops);
      CacheInStep(maxProcs, ops[..n]);
      StepInserts(After(EMPTY, maxProcs, ops[..n]), maxProcs, ops[n]);
    }
  }

  /** `t` stores some of the processes of `s`, each cached if it was. */
  ghost predicate Part(s: State, t: State) {
    && (forall id :: id in t.procs ==> id in s.procs)
    && (forall id :: id in t.cache <==> id in s.cache && id in t.procs)
  }

  lemma ClearedPart(s: State, maxProcs: int)
    requires InStep(s)
    ensures Part(s, Clear(s)) && Part(s, MakeRoom(s, maxProcs))
  {
    assert Clear(s).procs.Keys == s.procs.Keys - Done(s);
  }

  /** What one operation does to the two maps: what is inserted by creation is in
      both, what is inserted by registration is in the first only, and what stays
      stored stays in the cache if it was there. */
  lemma StepInserts(s: State, maxProcs: int, op: Op)
    requires InStep(s) && Enabled(s, op)
    ensures var t := Next(s, maxProcs, op);
            && InStep(t)
            && (forall id :: Inserts(s, maxProcs, op, id) == Some(ByCreation) ==> id in t.procs && id in t.cache)
            && (forall id :: Inserts(s, maxProcs, op, id) == Some(ByRegistration) ==> id in t.procs && id !in t.cache)
            && (forall id :: Inserts(s, maxProcs, op, id).None? ==>
                  (id in t.procs ==> id in s.procs) && (id in t.cache <==> id in s.cache && id in t.procs))
  {
    ClearedPart(s, maxProcs);
    hide Clear, MakeRoom;
  }

  /** `Clear` removes every complete process and no incomplete one, and keeps
      the two maps in step. */
  lemma ClearRemovesExactlyDone(s: State)
    requires InStep(s)
    ensures InStep(Clear(s))
    ensures forall id :: id in s.procs ==> (id in Clear(s).procs <==> !s.procs[id])
    ensures forall id :: id in Clear(s).procs ==> id in s.procs && Clear(s).procs[id] == s.procs[id]
    ensures forall id :: id in Clear(s).cache <==> id in s.cache && !s.procs[id]
  {
    assert Clear(s).procs.Keys == s.procs.Keys - Done(s);
  }

  // ----- capacity

  lemma SizeAfterClear(s: State)
    ensures |Clear(s).procs| == |s.procs| - |Done(s)|
  {
    assert Clear(s).procs.Keys == s.procs.Keys - Done(s);
    assert Done(s) <= s.procs.Keys;
    assert |s.procs.Keys - Done(s)| == |s.procs.Keys| - |Done(s)|;
  }

  lemma SizeAfterInsert(m: map<string, bool>, id: string, b: bool)
    ensures |m[id := b]| == if id in m then |m| else |m| + 1
  {
    assert m[id := b].Keys == m.Keys + {id};
  }

  /** Creation is refused for capacity exactly when `maxProcs` processes are
      stored and none of them is complete. */
  lemma RefusedExactlyWhenFull(s: State, maxProcs: int)
    ensures Refused(s, maxProcs) <==> |s.procs| == maxProcs && forall id :: id in s.procs ==> !s.procs[id]
  {
    SizeAfterClear(s);
    if |s.procs| == maxProcs && Refused(s, maxProcs) {
      assert |Done(s)| == 0;
      forall id | id in s.procs ensures !s.procs[id] {
        assert id !in Done(s);
      }
    }
    if forall id :: id in s.procs ==> !s.procs[id] {
      assert Done(s) == {};
    }
  }

  /** The state after the first `k` operations. */
  function StateAt(s: State, maxProcs: int, ops: seq<Op>, k: nat): State
    requires k <= |ops|
    decreases k
  {
    if k == 0 then s else StateAt(Next(s, maxProcs, ops[0]), maxProcs, ops[1..], k - 1)
  }

  lemma {:induction false} StateAtEnd(s: State, maxProcs: int, ops: seq<Op>)
    ensures StateAt(s, maxProcs, ops, |ops|) == After(s, maxProcs, ops)
    decreases |ops|
  {
    if ops != [] {
      StateAtEnd(Next(s, maxProcs, ops[0]), maxProcs, ops[1..]);
    }
  }

  /** At every point of the run at most `maxProcs` processes are stored. */
  predicate WithinCapacity(s: State, maxProcs: nat, ops: seq<Op>) {
    forall k :: 0 <= k <= |ops| ==> |StateAt(s, maxProcs, ops, k).procs| <= maxProcs
  }

  /** Whenever a trigger creates a child in the run, there is room for it. */
  predicate RoomForChildren(s: State, maxProcs: nat, ops: seq<Op>) {
    forall k :: 0 <= k < |ops| && ops[k].Spawns? ==> |StateAt(s, maxProcs, ops, k).procs| < maxProcs
  }

  /** Exactly when the capacity holds throughout a run: when no child is created
      while `maxProcs` processes are stored.  So it always does without trigger
      children. */
  lemma {:induction false} NeverOverCapacity(s: State, maxProcs: nat, ops: seq<Op>)
    requires |s.procs| <= maxProcs && IsRun(s, maxProcs, ops)
    ensures WithinCapacity(s, maxProcs, ops) <==> RoomForChildren(s, maxProcs, ops)
    ensures (forall op :: op in ops ==> !op.Spawns?) ==> WithinCapacity(s, maxProcs, ops)
    decreases |ops|
  {
    if ops != [] {
      var t := Next(s, maxProcs, ops[0]);
      SizeChanges(s, maxProcs, ops[0]);
      if |t.procs| <= maxProcs {
        NeverOverCapacity(t, maxProcs, ops[1..]);
      } else {
        assert StateAt(s, maxProcs, ops, 1) == StateAt(t, maxProcs, ops[1..], 0);
      }
      WithinCapacityFirst(s, maxProcs, ops);
      RoomFirst(s, maxProcs, ops);
    }
  }

  lemma WithinCapacityFirst(s: State, maxProcs: nat, ops: seq<Op>)
    requires ops != [] && |s.procs| <= maxProcs
    ensures WithinCapacity(s, maxProcs, ops) <==> WithinCapacity(Next(s, maxProcs, ops[0]), maxProcs, ops[1..])
  {
    hide Next;
    var t := Next(s, maxProcs, ops[0]);
    assert forall k :: 0 <= k < |ops| ==> StateAt(t, maxProcs, ops[1..], k) == StateAt(s, maxProcs, ops, k + 1);
    if WithinCapacity(t, maxProcs, ops[1..]) {
      forall k | 0 <= k <= |ops| ensures |StateAt(s, maxProcs, ops, k).procs| <= maxProcs {
        assert k > 0 ==> |StateAt(t, maxProcs, ops[1..], k - 1).procs| <= maxProcs;
      }
    }
  }

  lemma RoomFirst(s: State, maxProcs: nat, ops: seq<Op>)
    requires ops != []
    ensures RoomForChildren(s, maxProcs, ops) <==>
              && (ops[0].Spawns? ==> |s.procs| < maxProcs)
              && RoomForChildren(Next(s, maxProcs, ops[0]), maxProcs, ops[1..])
  {
    hide Next;
    var t := Next(s, maxProcs, ops[0]);
    assert StateAt(s, maxProcs, ops, 0) == s;
    assert forall k :: 0 <= k < |ops| - 1 ==>
      ops[1..][k] == ops[k + 1] && StateAt(t, maxProcs, ops[1..], k) == StateAt(s, maxProcs, ops, k + 1);
    if RoomForChildren(t, maxProcs, ops[1..]) && (ops[0].Spawns? ==> |s.procs| < maxProcs) {
      forall k | 0 <= k < |ops| && ops[k].Spawns? ensures |StateAt(s, maxProcs, ops, k).procs| < maxProcs {
        if k > 0 {
          assert ops[1..][k - 1] == ops[k];
        }
      }
    }
  }

  /** One operation passes the capacity exactly if it creates a child when full. */
  lemma SizeChanges(s: State, maxProcs: nat, op: Op)
    requires |s.procs| <= maxProcs && Enabled(s, op)
    ensures |Next(s, maxProcs, op).procs| <= maxProcs <==> (op.Spawns? ==> |s.procs| < maxProcs)
  {
    if op.Spawns? {
      SizeAfterInsert(s.procs, op.id, false);
    } else {
      SizeKept(s, maxProcs, op);
    }
  }

  lemma SizeKept(s: State, maxProcs: nat, op: Op)
    requires |s.procs| <= maxProcs && !op.Spawns?
    ensures |Next(s, maxProcs, op).procs| <= maxProcs
  {
    SizeAfterClear(s);
    if op.Creates? || op.Registers? || op.Completes? {
      SizeAfterInsert(MakeRoom(s, maxProcs).procs, op.id, false);
      SizeAfterInsert(MakeRoom(s, maxProcs).procs, op.id, true);
      SizeAfterInsert(s.procs, op.id, true);
    }
  }

  predicate Fresh(s: State, ids: seq<string>) {
    && (forall i :: 0 <= i < |ids| ==> ids[i] != "" && ids[i] !in s.procs)
    && (forall i, j :: 0 <= i < j < |ids| ==> ids[i] != ids[j])
  }

  function Spawning(ids: seq<string>): seq<Op> {
    seq(|ids|, i requires 0 <= i < |ids| => Spawns(ids[i]))
  }

  function Creating(ids: seq<string>): seq<Op> {
    seq(|ids|, i requires 0 <= i < |ids| => Creates(ids[i], true))
  }

  /** Trigger children are never refused. */
  lemma {:induction false} ChildrenBypassCapacity(s: State, maxProcs: int, ids: seq<string>)
    requires Fresh(s, ids)
    ensures IsRun(s, maxProcs, Spawning(ids))
    ensures |After(s, maxProcs, Spawning(ids)).procs| == |s.procs| + |ids|
    decreases |ids|
  {
    if ids != [] {
      var s' := Create(s, ids[0]);
      SizeAfterInsert(s.procs, ids[0], false);
      assert Spawning(ids)[1..] == Spawning(ids[1..]);
      ChildrenBypassCapacity(s', maxProcs, ids[1..]);
    }
  }

  /** The bound is lost for good: once children have taken the manager past it,
      no creation is refused for capacity any more, however many there are. */
  lemma {:induction false} PastTheBound(s: State, maxProcs: int, ids: seq<string>)
    requires |s.procs| > maxProcs && Fresh(s, ids)
    ensures IsRun(s, maxProcs, Creating(ids))
    ensures |After(s, maxProcs, Creating(ids)).procs| == |s.procs| + |ids|
    decreases |ids|
  {
    if ids != [] {
      var s' := Create(s, ids[0]);
      SizeAfterInsert(s.procs, ids[0], false);
      assert Creating(ids)[1..] == Creating(ids[1..]);
      PastTheBound(s', maxProcs, ids[1..]);
    }
  }

  /** A run with trigger children that passes the bound, for every capacity that
      allows a process at all: one process is created, completes, and its trigger
      creates as many children as the capacity. */
  lemma ChildrenPassTheBound(maxProcs: nat, parent: string, ids: seq<string>)
    requires maxProcs > 0 && |ids| == maxProcs && Fresh(EMPTY, [parent] + ids)
    ensures var ops := [Creates(parent, true), Completes(parent)] + Spawning(ids);
            IsRun(EMPTY, maxProcs, ops) && |After(EMPTY, maxProcs, ops).procs| == maxProcs + 1
  {
    var s1 := Next(EMPTY, maxProcs, Creates(parent, true));
    var s2 := Next(s1, maxProcs, Completes(parent));
    var ops := [Creates(parent, true), Completes(parent)] + Spawning(ids);
    assert s2.procs == map[parent := true];
    assert ([parent] + ids)[0] == parent;
    forall i | 0 <= i < |ids| ensures ids[i] != "" && ids[i] != parent {
      assert ([parent] + ids)[i + 1] == ids[i];
    }
    forall i, j | 0 <= i < j < |ids| ensures ids[i] != ids[j] {
      assert ([parent] + ids)[i + 1] == ids[i] && ([parent] + ids)[j + 1] == ids[j];
    }
    ChildrenBypassCapacity(s2, maxProcs, ids);
    assert ops[1..][1..] == Spawning(ids);
  }
}
