/** The processes that default triggers spawn from a tree of creation options
    (`triggers.go`), over every run of a pool of processes. */
module SpawnTree {

  /** Creation options with their trigger options; `name` stands for the rest. */
  datatype Tree = Tree(name: string, onSuccess: seq<Tree>, onFailure: seq<Tree>, onTimeout: seq<Tree>)

  /** How a process ended, as its default trigger sees it.  `Untriggered` is a
      process whose trigger never runs: it completed before the trigger could be
      registered, or it is a blocking process that accepted the trigger too late to
      run it. */
  datatype Ending = Ended(timeout: bool, successful: bool) | Untriggered

  /** A timeout takes precedence over success and failure. */
  function Chosen(t: Tree, e: Ending): seq<Tree> {
    match e
    case Untriggered => []
    case Ended(timeout, successful) =>
      if timeout then t.onTimeout else if successful then t.onSuccess else t.onFailure
  }

  /** The options, in order, of the attempts that made a process. */
  function Made(ts: seq<Tree>, made: seq<bool>): (r: seq<Tree>)
    requires |made| == |ts|
    ensures |r| <= |ts|
  {
    if ts == [] then []
    else Made(ts[..|ts| - 1], made[..|ts| - 1]) + if made[|ts| - 1] then [ts[|ts| - 1]] else []
  }

  // ----- the pool

  /** The options of the processes that have not ended, and the number of processes
      created so far. */
  datatype State = State(pool: seq<Tree>, created: nat)

  /** The process at a position of the pool ends, and its trigger attempts the
      children of one list; `made` tells which attempts made a process. */
  datatype Step = End(at: nat, ending: Ending, made: seq<bool>)

  function Start(t: Tree): State {
    State([t], 1)
  }

  predicate Enabled(s: State, e: Step) {
    e.at < |s.pool| && |e.made| == |Chosen(s.pool[e.at], e.ending)|
  }

  function Next(s: State, e: Step): State
    requires Enabled(s, e)
  {
    var children := Made(Chosen(s.pool[e.at], e.ending), e.made);
    State(s.pool[..e.at] + s.pool[e.at + 1..] + children, s.created + |children|)
  }

  predicate IsRun(s: State, run: seq<Step>)
    decreases |run|
  {
    run == [] || (Enabled(s, run[0]) && IsRun(Next(s, run[0]), run[1..]))
  }

  function After(s: State, run: seq<Step>): State
    requires IsRun(s, run)
    decreases |run|
  {
    if run == [] then s else After(Next(s, run[0]), run[1..])
  }

  // ----- the bound

  function Max(a: nat, b: nat): nat {
    if a < b then b else a
  }

  /** One process plus the largest of the three lists' summed bounds. */
  function Bound(t: Tree): nat
    decreases t
  {
    1 + Max(BoundOfAll(t.onSuccess), Max(BoundOfAll(t.onFailure), BoundOfAll(t.onTimeout)))
  }

  function BoundOfAll(ts: seq<Tree>): nat
    decreases ts
  {
    if ts == [] then 0 else Bound(ts[0]) + BoundOfAll(ts[1..])
  }

  lemma {:induction false} BoundConcat(a: seq<Tree>, b: seq<Tree>)
    ensures BoundOfAll(a + b) == BoundOfAll(a) + BoundOfAll(b)
  {
    if a == [] {
      assert a + b == b;
    } else {
      assert (a + b)[1..] == a[1..] + b;
      BoundConcat(a[1..], b);
    }
  }

  lemma {:induction false} BoundOfMade(ts: seq<Tree>, made: seq<bool>)
    requires |made| == |ts|
    ensures BoundOfAll(Made(ts, made)) <= BoundOfAll(ts)
    ensures (forall i :: 0 <= i < |ts| ==> made[i]) ==> Made(ts, made) == ts
  {
    if ts != [] {
      var n := |ts| - 1;
      BoundOfMade(ts[..n], made[..n]);
      BoundConcat(Made(ts[..n], made[..n]), if made[n] then [ts[n]] else []);
      BoundConcat(ts[..n], [ts[n]]);
      assert ts == ts[..n] + [ts[n]];
    }
  }

  /** Every end uses up part of what the pool can still lead to. */
  lemma EndLowersBound(s: State, e: Step)
    requires Enabled(s, e)
    ensures BoundOfAll(Next(s, e).pool) + Bound(s.pool[e.at])
            == BoundOfAll(s.pool) + BoundOfAll(Made(Chosen(s.pool[e.at], e.ending), e.made))
    ensures BoundOfAll(Next(s, e).pool) < BoundOfAll(s.pool)
  {
    var t := s.pool[e.at];
    var children := Made(Chosen(t, e.ending), e.made);
    ChosenWithinBound(t, e.ending);
    BoundOfMade(Chosen(t, e.ending), e.made);
    BoundOfOne(t);
    hide Bound, BoundOfAll, Made, Chosen;
    var before, behind := s.pool[..e.at], s.pool[e.at + 1..];
    assert s.pool == before + ([t] + behind);
    BoundConcat(before, [t] + behind);
    BoundConcat([t], behind);
    BoundConcat(before, behind);
    BoundConcat(before + behind, children);
  }

  lemma ChosenWithinBound(t: Tree, e: Ending)
    ensures BoundOfAll(Chosen(t, e)) < Bound(t)
  {
    hide BoundOfAll;
    NoTrees();
  }

  lemma NoTrees()
    ensures BoundOfAll([]) == 0
  {
  }

  lemma BoundOfOne(t: Tree)
    ensures BoundOfAll([t]) == Bound(t)
  {
    NoTrees();
    assert [t][1..] == [];
  }

  lemma {:induction false} PoolWithinBound(ts: seq<Tree>)
    ensures |ts| <= BoundOfAll(ts)
  {
    if ts != [] {
      PoolWithinBound(ts[1..]);
    }
  }

  lemma {:induction false} RunLowersBound(s: State, run: seq<Step>)
    requires IsRun(s, run)
    ensures |run| + BoundOfAll(After(s, run).pool) <= BoundOfAll(s.pool)
    ensures After(s, run).created + |s.pool| == s.created + |run| + |After(s, run).pool|
    decreases |run|
  {
    if run != [] {
      EndLowersBound(s, run[0]);
      RunLowersBound(Next(s, run[0]), run[1..]);
    }
  }

  /** Every run from one process, whatever its descendants' endings and whichever
      attempts fail, creates at most `Bound(t)` processes and has no more steps
      than that; and while any process is left, some step is possible, so a run
      that cannot go on has ended every process that it created. */
  lemma RunsBounded(t: Tree, run: seq<Step>)
    requires IsRun(Start(t), run)
    ensures After(Start(t), run).created <= Bound(t)
    ensures |run| <= Bound(t)
    ensures (exists e :: Enabled(After(Start(t), run), e)) <==> After(Start(t), run).pool != []
    ensures After(Start(t), run).pool == [] <==> |run| == After(Start(t), run).created
  {
    var s := After(Start(t), run);
    RunLowersBound(Start(t), run);
    assert [t][1..] == [];
    PoolWithinBound(s.pool);
    if s.pool != [] {
      assert Enabled(s, End(0, Untriggered, []));
    }
  }

  // ----- attaining it

  /** The ending that leads to the most processes. */
  function WorstEnding(t: Tree): Ending {
    var s, f, o := BoundOfAll(t.onSuccess), BoundOfAll(t.onFailure), BoundOfAll(t.onTimeout);
    if s >= f && s >= o then Ended(false, true) else if f >= o then Ended(false, false) else Ended(true, false)
  }

  function WorstStep(t: Tree): Step {
    var e := WorstEnding(t);
    End(0, e, seq(|Chosen(t, e)|, i => true))
  }

  lemma WorstStepLowersByOne(s: State)
    requires s.pool != []
    ensures Enabled(s, WorstStep(s.pool[0]))
    ensures BoundOfAll(Next(s, WorstStep(s.pool[0])).pool) == BoundOfAll(s.pool) - 1
  {
    var e := WorstStep(s.pool[0]);
    EndLowersBound(s, e);
    BoundOfMade(Chosen(s.pool[0], e.ending), e.made);
  }

  lemma {:induction false} WorstRun(s: State) returns (run: seq<Step>)
    ensures IsRun(s, run) && After(s, run).pool == [] && |run| == BoundOfAll(s.pool)
    decreases BoundOfAll(s.pool)
  {
    if s.pool == [] {
      return [];
    }
    WorstStepLowersByOne(s);
    var e := WorstStep(s.pool[0]);
    var rest := WorstRun(Next(s, e));
    run := [e] + rest;
    assert run[1..] == rest;
  }

  /** A run in which every process ends and that creates exactly `Bound(t)`. */
  lemma BoundAttained(t: Tree)
    ensures exists run ::
              IsRun(Start(t), run) && After(Start(t), run).pool == [] && After(Start(t), run).created == Bound(t)
  {
    var run := WorstRun(Start(t));
    RunLowersBound(Start(t), run);
    assert [t][1..] == [];
  }
}
