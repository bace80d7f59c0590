/** The managers as objects: the methods that update the process map and the
    logging cache, each proved to do what module `Manager` says it does. */
module ManagerObjects {
  import opened Wrappers
  import opened SpawnTree
  import M = Manager

  /** A process, as far as a manager looks at it: the options it was created with,
      and whether its default trigger is registered.  `tags` are those given to it
      since it was created. */
  class Process {
    const id: string
    const opts: Tree
    var complete: bool
    var hasTrigger: bool
    var tags: set<string>

    constructor (id: string, opts: Tree, complete: bool)
      ensures this.id == id && this.opts == opts && this.complete == complete && !hasTrigger && tags == {}
    {
      this.id, this.opts, this.complete := id, opts, complete;
      hasTrigger, tags := false, {};
    }

    /** A process that is complete refuses a trigger. */
    method RegisterDefaultTrigger() returns (ok: bool)
      modifies this`hasTrigger
      ensures ok == !complete && hasTrigger == (old(hasTrigger) || ok)
    {
      if complete {
        return false;
      }
      hasTrigger := true;
      ok := true;
    }

    method Tag(t: string)
      modifies this`tags
      ensures tags == old(tags) + {t}
    {
      tags := tags + {t};
    }
  }

  datatype CachedLogger = CachedLogger(id: string, accessed: int)

  class LoggingCache {
    var cache: map<string, CachedLogger>

    constructor ()
      ensures cache == map[]
    {
      cache := map[];
    }

    /** `None` is a nil logger. */
    method Put(id: string, logger: Option<CachedLogger>, now: int) returns (ok: bool)
      modifies this
      ensures ok <==> logger.Some? && id !in old(cache)
      ensures cache == if ok then old(cache)[id := logger.value.(accessed := now)] else old(cache)
    {
      if logger.None? {
        return false;
      }
      if id in cache {
        return false;
      }
      cache := cache[id := logger.value.(accessed := now)];
      ok := true;
    }

    method Remove(id: string) returns (ok: bool)
      modifies this
      ensures ok <==> id in old(cache)
      ensures cache == old(cache) - {id}
    {
      if id !in cache {
        return false;
      }
      cache := cache - {id};
      ok := true;
    }
  }

  class BasicManager {
    var procs: map<string, Process>
    const loggers: LoggingCache
    ghost var attempts: seq<Tree>  // history: the options `CreateProcess` was called with

    ghost function View(): M.State
      reads this, loggers, procs.Values
    {
      M.State(map id | id in procs :: procs[id].complete, loggers.cache.Keys)
    }

    ghost predicate Valid()
      reads this, loggers
    {
      && (forall id :: id in procs ==> procs[id].id == id)
      && loggers.cache.Keys <= procs.Keys
    }

    constructor ()
      ensures Valid() && fresh(loggers) && View() == M.EMPTY && procs == map[] && attempts == []
    {
      procs := map[];
      loggers := new LoggingCache();
      attempts := [];
    }

    /** `id` is the fresh UUID of the process that `NewProcess` constructs, if it
        constructs one; `ended` says whether that process has already completed
        when the default trigger is to be registered. */
    method CreateProcess(opts: Tree, id: Option<string>, ended: bool, now: int) returns (proc: Process?)
      requires Valid()
      requires id.Some? ==> id.value !in procs
      modifies this, loggers
      ensures Valid()
      ensures attempts == old(attempts) + [opts]
      ensures proc == null <==> id.None?
      ensures proc != null ==>
                && fresh(proc) && proc.id == id.value && proc.opts == opts && proc.tags == {}
                && proc.complete == ended && proc.hasTrigger == !ended
                && proc.id in loggers.cache && loggers.cache[proc.id].id == proc.id
      ensures procs == if proc != null then old(procs)[proc.id := proc] else old(procs)
      ensures View() == if id.None? then old(View()) else M.CreateEnded(old(View()), id.value, ended)
      ensures old(loggers.cache.Keys) <= loggers.cache.Keys
    {
      attempts := attempts + [opts];
      if id.None? {
        return null;
      }
      proc := new Process(id.value, opts, ended);
      var cached := loggers.Put(proc.id, Some(CachedLogger(proc.id, 0)), now);
      var registered := proc.RegisterDefaultTrigger();
      procs := procs[proc.id := proc];
      Stored(proc);
    }

    static lemma CreatedView(before: M.State, id: string, complete: bool)
      ensures M.CreateEnded(before, id, complete) == M.State(before.procs[id := complete], before.cache + {id})
    {
      assert before.procs[id := false][id := true] == before.procs[id := true];
    }

    /** The view of a manager that stores one more process. */
    twostate lemma Stored(new proc: Process)
      requires old(Valid()) && fresh(proc) && proc.id !in old(procs)
      requires procs == old(procs)[proc.id := proc]
      requires forall id :: id in old(procs) ==> procs[id].complete == old(procs[id].complete)
      requires loggers.cache.Keys == old(loggers.cache.Keys) + {proc.id}
      ensures View() == M.CreateEnded(old(View()), proc.id, proc.complete)
    {
      hide M.CreateEnded;
      forall id | id in procs
        ensures View().procs[id] == old(View()).procs[proc.id := proc.complete][id]
      {
      }
      assert View().procs == old(View()).procs[proc.id := proc.complete];
      CreatedView(old(View()), proc.id, proc.complete);
    }

    method Register(cancelled: bool, proc: Option<Process>) returns (ok: bool)
      requires Valid()
      modifies this`procs
      ensures Valid()
      ensures ok <==> !cancelled && proc.Some? && proc.value.id != "" && proc.value.id !in old(procs)
      ensures View() == if proc.None? then old(View())
                        else M.Register(old(View()), proc.value.id, proc.value.complete, cancelled)
      ensures procs == if ok then old(procs)[proc.value.id := proc.value] else old(procs)
    {
      if cancelled || proc.None? || proc.value.id == "" {
        return false;
      }
      if proc.value.id in procs {
        return false;
      }
      procs := procs[proc.value.id := proc.value];
      return true;
    }

    ghost function DoneIds(): set<string>
      reads this, procs.Values
    {
      set id | id in procs && procs[id].complete
    }

    method DropIfDone(id: string)
      requires id in procs
      modifies this`procs, loggers
      ensures var dropped := if old(procs[id].complete) then {id} else {};
              && procs == old(procs) - dropped
              && loggers.cache == old(loggers.cache) - dropped
    {
      if procs[id].complete {
        procs := procs - {id};
        var removed := loggers.Remove(id);
      }
    }

    method RemoveDone()
      modifies this`procs, loggers
      ensures procs == old(procs) - old(DoneIds())
      ensures loggers.cache == old(loggers.cache) - old(DoneIds())
    {
      ghost var done := DoneIds();
      var pending := procs.Keys;
      while pending != {}
        invariant pending <= procs.Keys
        invariant forall id :: id in procs <==> id in old(procs) && (id in done ==> id in pending)
        invariant forall id :: id in procs ==> procs[id] == old(procs)[id]
        invariant forall id :: id in loggers.cache <==> id in old(loggers.cache) && (id in done ==> id in pending)
        invariant forall id :: id in loggers.cache ==> loggers.cache[id] == old(loggers.cache)[id]
        decreases pending
      {
        var id :| id in pending;
        DropIfDone(id);
        pending := pending - {id};
      }
    }

    method Clear()
      requires Valid()
      modifies this`procs, loggers
      ensures Valid()
      ensures View() == M.Clear(old(View()))
      ensures procs.Keys == old(procs).Keys - M.Done(old(View()))
    {
      ghost var before := View();
      assert DoneIds() == M.Done(before);
      RemoveDone();
      assert View().procs == before.procs - M.Done(before);
    }
  }

  class SelfClearingManager {
    const basic: BasicManager
    const maxProcs: int

    constructor (maxProcs: int)
      ensures fresh(basic) && fresh(basic.loggers) && basic.Valid() && this.maxProcs == maxProcs
      ensures basic.View() == M.EMPTY && basic.procs == map[]
    {
      basic := new BasicManager();
      this.maxProcs := maxProcs;
    }

    method CheckProcCapacity() returns (ok: bool)
      requires basic.Valid()
      modifies basic, basic.loggers
      ensures basic.Valid()
      ensures basic.View() == M.MakeRoom(old(basic.View()), maxProcs)
      ensures ok <==> !M.Refused(old(basic.View()), maxProcs)
      ensures basic.procs.Keys <= old(basic.procs).Keys && basic.attempts == old(basic.attempts)
    {
      assert basic.View().procs.Keys == basic.procs.Keys;
      ok := true;
      if |basic.procs| == maxProcs {
        basic.Clear();
        assert basic.View().procs.Keys == basic.procs.Keys;
        if |basic.procs| == maxProcs {
          ok := false;
        }
      }
    }

    /** The creation step of the runs in `Manager`, and if the process had ended
        before it was stored, its completion step.  A refused creation does not
        get as far as the basic manager. */
    method CreateProcess(opts: Tree, id: Option<string>, ended: bool, now: int) returns (proc: Process?)
      requires basic.Valid()
      requires id.Some? ==> id.value !in basic.procs
      modifies basic, basic.loggers
      ensures basic.Valid()
      ensures proc != null <==> id.Some? && !M.Refused(old(basic.View()), maxProcs)
      ensures proc != null ==> fresh(proc) && proc.id == id.value && proc.opts == opts && proc.hasTrigger == !ended
      ensures var created := M.Next(old(basic.View()), maxProcs, M.Creates(if id.Some? then id.value else "", id.Some?));
              basic.View() == if proc != null && ended then M.Next(created, maxProcs, M.Completes(proc.id)) else created
      ensures basic.attempts ==
              old(basic.attempts) + if M.Refused(old(basic.View()), maxProcs) then [] else [opts]
    {
      var room := CheckProcCapacity();
      if !room {
        return null;
      }
      proc := basic.CreateProcess(opts, id, ended, now);
    }

    method Register(cancelled: bool, proc: Option<Process>) returns (ok: bool)
      requires basic.Valid()
      modifies basic, basic.loggers
      ensures basic.Valid()
      ensures ok <==>
                && !M.Refused(old(basic.View()), maxProcs) && !cancelled && proc.Some? && proc.value.id != ""
                && proc.value.id !in M.MakeRoom(old(basic.View()), maxProcs).procs
      ensures basic.View() ==
              if proc.None? then M.MakeRoom(old(basic.View()), maxProcs)
              else M.Next(old(basic.View()), maxProcs, M.Registers(proc.value.id, proc.value.complete, cancelled))
    {
      var room := CheckProcCapacity();
      if !room {
        return false;
      }
      ok := basic.Register(cancelled, proc);
    }
  }

  // ----- default triggers

  function Options(ps: seq<Process>): (r: seq<Tree>) {
    seq(|ps|, i requires 0 <= i < |ps| => ps[i].opts)
  }

  /** What each attempt to create a child comes to: the id of the process if one
      is made, and whether it had ended before its trigger could be registered. */
  datatype Attempt = Attempt(id: Option<string>, ended: bool)

  function Successes(attempts: seq<Attempt>): (r: seq<bool>)
    ensures |r| == |attempts|
  {
    seq(|attempts|, i requires 0 <= i < |attempts| => attempts[i].id.Some?)
  }

  predicate NewIds(m: BasicManager, attempts: seq<Attempt>)
    reads m
  {
    && (forall i :: 0 <= i < |attempts| && attempts[i].id.Some? ==> attempts[i].id.value !in m.procs)
    && (forall i, j :: 0 <= i < j < |attempts| && attempts[i].id.Some? ==> attempts[i].id != attempts[j].id)
  }

  /** A process that the manager stores, and caches a logger for, as a new child. */
  ghost predicate StoredChild(m: BasicManager, before: map<string, Process>, parentID: string, c: Process)
    reads m, m.loggers, c
  {
    && c.tags == {parentID} && (c.hasTrigger <==> !c.complete)
    && c.id !in before && c.id in m.procs && m.procs[c.id] == c && c.id in m.loggers.cache
  }

  method SpawnChild(m: BasicManager, opts: Tree, parentID: string, attempt: Attempt, now: int)
    returns (child: Process?)
    requires m.Valid() && (attempt.id.Some? ==> attempt.id.value !in m.procs)
    modifies m, m.loggers
    ensures m.Valid()
    ensures m.attempts == old(m.attempts) + [opts]
    ensures child == null <==> attempt.id.None?
    ensures child != null ==>
              && fresh(child) && child.opts == opts && child.id == attempt.id.value
              && StoredChild(m, old(m.procs), parentID, child)
    ensures m.procs == if child != null then old(m.procs)[child.id := child] else old(m.procs)
    ensures old(m.loggers.cache.Keys) <= m.loggers.cache.Keys
  {
    child := m.CreateProcess(opts, attempt.id, attempt.ended, now);
    if child != null {
      child.Tag(parentID);
    }
  }

  /** The loop of the default trigger over one list. */
  method SpawnChildren(m: BasicManager, list: seq<Tree>, parentID: string, attempts: seq<Attempt>, now: int)
    returns (children: seq<Process>)
    requires m.Valid() && |attempts| == |list| && NewIds(m, attempts)
    modifies m, m.loggers
    ensures m.Valid()
    ensures m.attempts == old(m.attempts) + list
    ensures Options(children) == Made(list, Successes(attempts))
    ensures forall c :: c in children ==> fresh(c) && StoredChild(m, old(m.procs), parentID, c)
    ensures forall id :: id in m.procs ==>
              if id in old(m.procs) then m.procs[id] == old(m.procs)[id] else m.procs[id] in children
    ensures old(m.procs).Keys <= m.procs.Keys
  {
    children := [];
    assert Options(children) == Made(list[..0], Successes(attempts)[..0]);
    hide Made, Options, Successes, BasicManager.Valid, BasicManager.View;
    for k := 0 to |list|
      invariant m.Valid()
      invariant m.attempts == old(m.attempts) + list[..k]
      invariant Options(children) == Made(list[..k], Successes(attempts)[..k])
      invariant forall i :: k <= i < |attempts| && attempts[i].id.Some? ==> attempts[i].id.value !in m.procs
      invariant forall c :: c in children ==> fresh(c) && StoredChild(m, old(m.procs), parentID, c)
      invariant forall id :: id in m.procs ==>
        if id in old(m.procs) then m.procs[id] == old(m.procs)[id] else m.procs[id] in children
      invariant old(m.procs).Keys <= m.procs.Keys
    {
      OneAttempt(list, attempts, k);
      var child := SpawnChild(m, list[k], parentID, attempts[k], now);
      if child == null {
        continue;
      }
      OneOption(children, child);
      children := children + [child];
    }
    assert list[..|list|] == list && Successes(attempts)[..|list|] == Successes(attempts);
  }

  lemma OneOption(ps: seq<Process>, p: Process)
    ensures Options(ps + [p]) == Options(ps) + [p.opts]
  {
  }

  lemma OneAttempt(list: seq<Tree>, attempts: seq<Attempt>, k: nat)
    requires k < |list| == |attempts|
    ensures list[..k + 1] == list[..k] + [list[k]]
    ensures Made(list[..k + 1], Successes(attempts)[..k + 1])
            == Made(list[..k], Successes(attempts)[..k]) + if attempts[k].id.Some? then [list[k]] else []
  {
    assert list[..k + 1][..k] == list[..k] && Successes(attempts)[..k + 1][..k] == Successes(attempts)[..k];
  }

  /** `makeDefaultTrigger` (`triggers.go`): the children of one of the parent's
      three lists are attempted, all of them and in order; a child that cannot be
      created is passed over; a child that is created is stored by the basic
      manager, without a capacity check, and tagged with its parent's id. */
  method RunDefaultTrigger(m: BasicManager, parent: Process, timeout: bool, successful: bool,
                           attempts: seq<Attempt>, now: int)
    returns (children: seq<Process>)
    requires m.Valid() && parent.hasTrigger
    requires |attempts| == |Chosen(parent.opts, Ended(timeout, successful))| && NewIds(m, attempts)
    modifies m, m.loggers
    ensures m.Valid()
    ensures timeout ==> m.attempts == old(m.attempts) + parent.opts.onTimeout
    ensures !timeout && successful ==> m.attempts == old(m.attempts) + parent.opts.onSuccess
    ensures !timeout && !successful ==> m.attempts == old(m.attempts) + parent.opts.onFailure
    ensures Options(children) == Made(Chosen(parent.opts, Ended(timeout, successful)), Successes(attempts))
    ensures forall c :: c in children ==> fresh(c) && StoredChild(m, old(m.procs), parent.id, c)
    ensures forall id :: id in m.procs ==>
              if id in old(m.procs) then m.procs[id] == old(m.procs)[id] else m.procs[id] in children
    ensures old(m.procs).Keys <= m.procs.Keys
  {
    var list: seq<Tree>;
    if timeout {
      list := parent.opts.onTimeout;
    } else if successful {
      list := parent.opts.onSuccess;
    } else {
      list := parent.opts.onFailure;
    }
    children := SpawnChildren(m, list, parent.id, attempts, now);
  }

  /** The process at a position of a pool ends: its default trigger runs, if it was
      registered and is not `lost`, and its children join the pool.  A blocking
      process loses a trigger that it accepts after its trigger step.  This is the
      step of the runs in `SpawnTree`, on the options of the processes in the pool. */
  method EndProcess(m: BasicManager, pool: seq<Process>, at: nat, lost: bool, timeout: bool, successful: bool,
                    attempts: seq<Attempt>, now: int)
    returns (pool': seq<Process>)
    requires m.Valid() && at < |pool|
    requires |attempts| == |Chosen(pool[at].opts, EndingOf(pool[at], lost, timeout, successful))| && NewIds(m, attempts)
    modifies m, m.loggers, pool[at]
    ensures m.Valid() && pool[at].complete
    ensures forall created: nat ::
              var s := State(Options(pool), created);
              var step := End(at, old(EndingOf(pool[at], lost, timeout, successful)), Successes(attempts));
              Enabled(s, step) && Next(s, step).pool == Options(pool')
    ensures |pool'| >= |pool| - 1
    ensures var children := Options(pool'[|pool| - 1..]);
            if !old(pool[at].hasTrigger) || lost then m.attempts == old(m.attempts) && children == []
            else if timeout then
              m.attempts == old(m.attempts) + pool[at].opts.onTimeout
              && children == Made(pool[at].opts.onTimeout, Successes(attempts))
            else if successful then
              m.attempts == old(m.attempts) + pool[at].opts.onSuccess
              && children == Made(pool[at].opts.onSuccess, Successes(attempts))
            else
              m.attempts == old(m.attempts) + pool[at].opts.onFailure
              && children == Made(pool[at].opts.onFailure, Successes(attempts))
    ensures forall p :: p in pool'[|pool| - 1..] ==> p.tags == {pool[at].id} && p.id in m.procs && m.procs[p.id] == p
    ensures lost ==> |pool'| == |pool| - 1 && m.procs == old(m.procs)
  {
    var children := [];
    if pool[at].hasTrigger && !lost {
      children := RunDefaultTrigger(m, pool[at], timeout, successful, attempts, now);
    }
    pool[at].complete := true;
    pool' := pool[..at] + pool[at + 1..] + children;
    assert Options(pool') == Options(pool)[..at] + Options(pool)[at + 1..] + Options(children);
    assert pool'[|pool| - 1..] == children;
  }

  function EndingOf(p: Process, lost: bool, timeout: bool, successful: bool): Ending
    reads p
  {
    if p.hasTrigger && !lost then Ended(timeout, successful) else Untriggered
  }
}
