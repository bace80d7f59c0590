/** `RunParallel` (`command.go`): a goroutine for each subcommand sends its result
    on a buffered channel, and the caller collects. */
module Parallel {
  import opened CreateOptions

  /** What an inner command hands over; a panic hands over an error and no
      processes. */
  datatype Result = Result(worker: nat, procs: seq<nat>, failed: bool)

  /** A goroutine: running the inner command; offering its result, with or without
      the context as an alternative; or finished, with or without having sent. */
  datatype Worker =
    | Running
    | Offering(result: Result)   // `select` on the send and the context
    | Panicking(result: Result)  // unconditional send in the deferred function
    | Sent(result: Result)
    | GaveUp(result: Result)

  datatype Collector = Collecting | Finished(ok: bool) | Cancelled

  datatype State = State(
    ignoreError: bool,
    initialProcs: seq<nat>,
    closers: seq<nat>,        // closers of the command's own options
    innerClosers: seq<seq<nat>>,  // closers of each inner command's options
    workers: seq<Worker>,
    channel: seq<Result>,
    taken: seq<Result>,       // history: results received, in order
    failed: bool,             // the collector's error catcher
    procs: seq<nat>,
    collector: Collector,
    ctxDone: bool,
    closed: seq<nat>)         // history: closers called

  /** One worker for each inner command. */
  function Init(ignoreError: bool, procs: seq<nat>, closers: seq<nat>, innerClosers: seq<seq<nat>>): State {
    State(ignoreError, procs, closers, innerClosers, seq(|innerClosers|, i => Running), [], [], false, procs,
          Collecting, false, [])
  }

  /** `Return` and `Panic` say how many of the inner options' closers the inner
      command called: all of them if its `Run` got to closing, none if the
      prerequisite or the run function returned instead. */
  datatype Action =
    | Return(worker: nat, innerProcs: seq<nat>, innerFailed: bool, called: nat)
    | Panic(worker: nat, called: nat)
    | Send(worker: nat)
    | GiveUp(worker: nat)
    | Cancel
    | Take
    | Finish(closeFails: bool)
    | SeeCancel

  /** A send needs room in the channel, whose capacity is the number of workers. */
  predicate Enabled(s: State, a: Action) {
    match a
    case Return(w, _, _, called) =>
      w < |s.workers| && s.workers[w].Running? && called in {0, |InnerClosers(s, w)|}
    case Panic(w, called) => w < |s.workers| && s.workers[w].Running? && called <= |InnerClosers(s, w)|
    case Send(w) => WantsToSend(s, w) && |s.channel| < |s.workers|
    case GiveUp(w) => w < |s.workers| && s.workers[w].Offering? && s.ctxDone
    case Cancel => true
    case Take => s.collector.Collecting? && |s.taken| < |s.workers| && s.channel != []
    case Finish(_) => s.collector.Collecting? && |s.taken| == |s.workers|
    case SeeCancel => s.collector.Collecting? && |s.taken| < |s.workers| && s.ctxDone
  }

  function InnerClosers(s: State, w: nat): seq<nat> {
    if w < |s.innerClosers| then s.innerClosers[w] else []
  }

  predicate WantsToSend(s: State, w: nat) {
    w < |s.workers| && (s.workers[w].Offering? || s.workers[w].Panicking?)
  }

  function Next(s: State, a: Action): State
    requires Enabled(s, a)
  {
    match a
    case Return(w, procs, failed, called) =>
      s.(workers := s.workers[w := Offering(Result(w, procs, failed))],
         closed := s.closed + InnerClosers(s, w)[..called])
    case Panic(w, called) =>
      s.(workers := s.workers[w := Panicking(Result(w, [], true))], closed := s.closed + InnerClosers(s, w)[..called])
    case Send(w) =>
      s.(workers := s.workers[w := Sent(s.workers[w].result)], channel := s.channel + [s.workers[w].result])
    case GiveUp(w) => s.(workers := s.workers[w := GaveUp(s.workers[w].result)])
    case Cancel => s.(ctxDone := true)
    case Take =>
      var r := s.channel[0];
      s.(channel := s.channel[1..], taken := s.taken + [r], procs := s.procs + r.procs,
         failed := s.failed || (!s.ignoreError && r.failed))
    case Finish(closeFails) =>
      s.(collector := Finished(!s.failed && !closeFails), closed := s.closed + s.closers)
    case SeeCancel => s.(collector := Cancelled, procs := [], closed := s.closed + s.closers)
  }

  predicate IsRun(s: State, acts: seq<Action>)
    decreases |acts|
  {
    acts == [] || (Enabled(s, acts[0]) && IsRun(Next(s, acts[0]), acts[1..]))
  }

  function After(s: State, acts: seq<Action>): State
    requires IsRun(s, acts)
    decreases |acts|
  {
    if acts == [] then s else After(Next(s, acts[0]), acts[1..])
  }

  // ----- specification of what is collected

  function ProcsOf(rs: seq<Result>): seq<nat> {
    if rs == [] then [] else ProcsOf(rs[..|rs| - 1]) + rs[|rs| - 1].procs
  }

  predicate AnyFailed(rs: seq<Result>) {
    rs != [] && (AnyFailed(rs[..|rs| - 1]) || rs[|rs| - 1].failed)
  }

  lemma {:induction false} AnyFailedMeans(rs: seq<Result>)
    ensures AnyFailed(rs) <==> exists r :: r in rs && r.failed
  {
    if rs != [] {
      var m := |rs| - 1;
      AnyFailedMeans(rs[..m]);
      assert rs == rs[..m] + [rs[m]];
    }
  }

  predicate AllSent(ws: seq<Worker>) {
    forall i :: 0 <= i < |ws| ==> ws[i].Sent?
  }

  /** The results that the workers handed over, in the order of the subcommands. */
  function Results(ws: seq<Worker>): seq<Result>
    requires AllSent(ws)
  {
    seq(|ws|, i requires 0 <= i < |ws| => ws[i].result)
  }

  // ----- invariant

  predicate Distinct(rs: seq<Result>) {
    forall i, j :: 0 <= i < j < |rs| ==> rs[i].worker != rs[j].worker
  }

  /** The sent results are those taken followed by those in the channel; each
      worker has sent at most one, its own. */
  predicate Sending(s: State) {
    var sent := s.taken + s.channel;
    && Distinct(sent)
    && (forall i :: 0 <= i < |sent| ==>
          sent[i].worker < |s.workers| && s.workers[sent[i].worker] == Sent(sent[i]))
    && (forall w :: 0 <= w < |s.workers| && s.workers[w].Sent? ==> s.workers[w].result in sent)
    && (forall w :: 0 <= w < |s.workers| && (s.workers[w].Offering? || s.workers[w].Panicking? || s.workers[w].Sent?)
          ==> s.workers[w].result.worker == w)
  }

  predicate NoInnerClosers(s: State) {
    forall w :: 0 <= w < |s.innerClosers| ==> s.innerClosers[w] == []
  }

  predicate CollectedOk(s: State) {
    && |s.taken| <= |s.workers|
    && (NoInnerClosers(s) ==> s.closed == if s.collector.Collecting? then [] else s.closers)
    && (s.collector.Cancelled? ==> s.procs == [] && s.ctxDone)
    && (!s.collector.Cancelled? ==> s.procs == s.initialProcs + ProcsOf(s.taken))
    && (s.failed <==> !s.ignoreError && AnyFailed(s.taken))
    && (s.collector.Finished? ==> |s.taken| == |s.workers|)
    && (!s.ctxDone ==> forall w :: 0 <= w < |s.workers| ==> !s.workers[w].GaveUp?)
  }

  ghost predicate Inv(s: State) {
    Sending(s) && CollectedOk(s)
  }

  lemma SendKept(s: State, w: nat)
    requires Sending(s) && Enabled(s, Send(w))
    ensures Sending(Next(s, Send(w)))
  {
    var s' := Next(s, Send(w));
    var sent := s.taken + s.channel;
    var r := s.workers[w].result;
    assert s'.taken + s'.channel == sent + [r];
    assert (sent + [r])[|sent|] == r;
  }

  lemma SendingKept(s: State, a: Action)
    requires Sending(s) && Enabled(s, a)
    ensures Sending(Next(s, a))
  {
    if a.Send? {
      SendKept(s, a.worker);
    } else {
      assert Next(s, a).taken + Next(s, a).channel == s.taken + s.channel;
    }
  }

  lemma TakingKept(s: State)
    requires CollectedOk(s) && Enabled(s, Take)
    ensures CollectedOk(Next(s, Take))
  {
    var r := s.channel[0];
    assert (s.taken + [r])[..|s.taken|] == s.taken;
    assert ProcsOf(s.taken + [r]) == ProcsOf(s.taken) + r.procs;
    assert s.initialProcs + ProcsOf(s.taken) + r.procs == s.initialProcs + (ProcsOf(s.taken) + r.procs);
  }

  lemma CollectingKept(s: State, a: Action)
    requires CollectedOk(s) && Enabled(s, a)
    ensures CollectedOk(Next(s, a))
  {
    if a.Take? {
      TakingKept(s);
    } else if (a.Return? || a.Panic?) && NoInnerClosers(s) {
      assert InnerClosers(s, a.worker) == [];
    }
  }

  lemma InvKept(s: State, a: Action)
    requires Inv(s) && Enabled(s, a)
    ensures Inv(Next(s, a))
  {
    SendingKept(s, a);
    CollectingKept(s, a);
  }

  lemma {:induction false} InvRun(s: State, acts: seq<Action>)
    requires Inv(s) && IsRun(s, acts)
    ensures Inv(After(s, acts))
    decreases |acts|
  {
    if acts != [] {
      InvKept(s, acts[0]);
      InvRun(Next(s, acts[0]), acts[1..]);
    }
  }

  ghost predicate EndsIn(ignoreError: bool, procs: seq<nat>, closers: seq<nat>, innerClosers: seq<seq<nat>>,
                         acts: seq<Action>, s: State)
  {
    var s0 := Init(ignoreError, procs, closers, innerClosers);
    IsRun(s0, acts) && After(s0, acts) == s
  }

  ghost predicate Reachable(s: State) {
    exists ignoreError, procs, closers, innerClosers, acts ::
      EndsIn(ignoreError, procs, closers, innerClosers, acts, s)
  }

  lemma InvInit(ignoreError: bool, procs: seq<nat>, closers: seq<nat>, innerClosers: seq<seq<nat>>)
    ensures Inv(Init(ignoreError, procs, closers, innerClosers))
  {
  }

  lemma ReachableInv(s: State)
    requires Reachable(s)
    ensures Inv(s)
  {
    var ignoreError, procs, closers, innerClosers, acts :|
      EndsIn(ignoreError, procs, closers, innerClosers, acts, s);
    InvInit(ignoreError, procs, closers, innerClosers);
    InvRun(Init(ignoreError, procs, closers, innerClosers), acts);
  }

  // ----- what the invariant means

  lemma WorkerIds(rs: seq<Result>, n: nat) returns (ids: set<nat>)
    requires Distinct(rs) && forall i :: 0 <= i < |rs| ==> rs[i].worker < n
    ensures |ids| == |rs| && forall w :: w in ids <==> exists i :: 0 <= i < |rs| && rs[i].worker == w
    ensures forall w :: w in ids ==> w < n
    decreases |rs|
  {
    if rs == [] {
      ids := {};
    } else {
      var m := |rs| - 1;
      var before := WorkerIds(rs[..m], n);
      ids := before + {rs[m].worker};
    }
  }

  lemma {:induction false} Below(n: nat, ids: set<nat>)
    requires forall w :: w in ids ==> w < n
    ensures |ids| <= n
    ensures |ids| == n ==> forall w :: 0 <= w < n ==> w in ids
  {
    if n > 0 {
      var rest := ids - {n - 1};
      Below(n - 1, rest);
      assert n - 1 in ids ==> ids == rest + {n - 1};
      assert n - 1 !in ids ==> ids == rest;
    } else {
      assert ids == {};
    }
  }

  /** No send ever blocks, even after cancellation: a worker that wants to send
      finds room. */
  lemma SendsNeverBlock(s: State, w: nat)
    requires Reachable(s) && WantsToSend(s, w)
    ensures Enabled(s, Send(w))
  {
    ReachableInv(s);
    var sent := s.taken + s.channel;
    var ids := WorkerIds(sent, |s.workers|);
    Below(|s.workers|, ids);
    assert w !in ids;
  }

  /** Each worker sends at most one result, and the channel never holds more than
      its capacity. */
  lemma AtMostOneEach(s: State, i: nat, j: nat)
    requires Reachable(s)
    ensures |s.taken + s.channel| <= |s.workers|
    ensures i < j < |s.taken + s.channel| ==> (s.taken + s.channel)[i].worker != (s.taken + s.channel)[j].worker
  {
    ReachableInv(s);
    var ids := WorkerIds(s.taken + s.channel, |s.workers|);
    Below(|s.workers|, ids);
  }

  /** Without cancellation the collector is never stuck: while it lacks results,
      one is in the channel or some worker has yet to send. */
  lemma CollectorProgress(s: State)
    requires Reachable(s) && !s.ctxDone && s.collector.Collecting? && |s.taken| < |s.workers|
    ensures s.channel != [] || exists w :: 0 <= w < |s.workers| && (s.workers[w].Running? || WantsToSend(s, w))
  {
    ReachableInv(s);
    if s.channel == [] {
      var sent := s.taken + s.channel;
      assert sent == s.taken;
      var ids := WorkerIds(sent, |s.workers|);
      Below(|s.workers|, ids);
      if forall w :: 0 <= w < |s.workers| ==> w in ids {
        AllIn(|s.workers|, ids);
      }
      var w :| 0 <= w < |s.workers| && w !in ids;
      assert !s.workers[w].Sent?;
    }
  }

  lemma {:induction false} AllIn(n: nat, ids: set<nat>)
    requires forall w :: 0 <= w < n ==> w in ids
    ensures |ids| >= n
  {
    if n > 0 {
      AllIn(n - 1, ids - {n - 1});
    }
  }

  /** When the collector finishes, it has taken exactly one result from every
      worker, `procs` grew by a permutation of the processes that the inner
      commands returned, in the order of arrival, and if the inner options had no
      closers, the command's closers were called once in total. */
  lemma CollectsEverything(s: State)
    requires Reachable(s) && s.collector.Finished?
    ensures |s.taken| == |s.workers| && s.channel == []
    ensures AllSent(s.workers)
    ensures s.procs == s.initialProcs + ProcsOf(s.taken)
    ensures multiset(s.taken) == multiset(Results(s.workers))
    ensures multiset(ProcsOf(s.taken)) == multiset(ProcsOf(Results(s.workers)))
    ensures NoInnerClosers(s) ==> s.closed == s.closers
  {
    ReachableInv(s);
    var sent := s.taken + s.channel;
    var n := |s.workers|;
    var ids := WorkerIds(sent, n);
    Below(n, ids);
    assert |sent| == n && s.channel == [] && sent == s.taken;
    forall w | 0 <= w < n ensures s.workers[w].Sent? {
      assert w in ids;
    }
    var rs := Results(s.workers);
    forall i | 0 <= i < n ensures rs[i] in s.taken {
      assert rs[i] == s.workers[i].result;
    }
    forall r | r in s.taken ensures r in rs {
      var i :| 0 <= i < |s.taken| && s.taken[i] == r;
      assert sent[i] == r && rs[r.worker] == r;
    }
    SameElements(s.taken, rs);
    ProcsOfPermutation(s.taken, rs);
  }

  lemma SameElements(a: seq<Result>, b: seq<Result>)
    requires Distinct(a) && Distinct(b)
    requires forall r :: r in a <==> r in b
    ensures multiset(a) == multiset(b)
  {
    forall r ensures multiset(a)[r] == multiset(b)[r] {
      CountDistinct(a, r);
      CountDistinct(b, r);
    }
  }

  lemma {:induction false} CountDistinct(rs: seq<Result>, r: Result)
    requires Distinct(rs)
    ensures multiset(rs)[r] == if r in rs then 1 else 0
  {
    if rs != [] {
      var m := |rs| - 1;
      assert rs == rs[..m] + [rs[m]];
      CountDistinct(rs[..m], r);
    }
  }

  lemma {:induction false} ProcsOfPermutation(a: seq<Result>, b: seq<Result>)
    requires multiset(a) == multiset(b)
    ensures multiset(ProcsOf(a)) == multiset(ProcsOf(b))
    decreases |a|
  {
    if a == [] {
      assert |multiset(b)| == 0;
      assert b == [];
    } else {
      var m := |a| - 1;
      assert a == a[..m] + [a[m]];
      assert a[m] in multiset(b);
      var k :| 0 <= k < |b| && b[k] == a[m];
      var rest := b[..k] + b[k + 1..];
      assert b == b[..k] + [b[k]] + b[k + 1..];
      calc {
        multiset(a[..m]);
        multiset(a) - multiset{a[m]};
        multiset(b) - multiset{b[k]};
        { assert multiset(b) == multiset(b[..k]) + multiset{b[k]} + multiset(b[k + 1..]); }
        multiset(b[..k]) + multiset(b[k + 1..]);
        multiset(rest);
      }
      ProcsOfPermutation(a[..m], rest);
      ProcsOfMiddle(b[..k], b[k], b[k + 1..]);
    }
  }

  lemma {:induction false} ProcsOfConcat(a: seq<Result>, b: seq<Result>)
    ensures ProcsOf(a + b) == ProcsOf(a) + ProcsOf(b)
  {
    if b == [] {
      assert a + b == a;
    } else {
      var m := |b| - 1;
      assert (a + b)[..|a + b| - 1] == a + b[..m];
      ProcsOfConcat(a, b[..m]);
    }
  }

  lemma ProcsOfMiddle(a: seq<Result>, r: Result, b: seq<Result>)
    ensures multiset(ProcsOf(a + [r] + b)) == multiset(ProcsOf(a + b)) + multiset(r.procs)
  {
    ProcsOfConcat(a + [r], b);
    ProcsOfConcat(a, b);
    assert (a + [r])[..|a|] == a;
    assert ProcsOf(a + [r]) == ProcsOf(a) + r.procs;
  }

  /** The collector reports success iff closing succeeded and errors are ignored
      or no worker failed; a cancelled collector drops the processes.  Either way
      the command's closers are called once. */
  lemma CollectorVerdict(s: State, closeFails: bool)
    requires Reachable(s) && Enabled(s, Finish(closeFails))
    ensures var t := Next(s, Finish(closeFails));
            t.collector == Finished(!closeFails && (s.ignoreError || forall r :: r in s.taken ==> !r.failed))
  {
    ReachableInv(s);
    AnyFailedMeans(s.taken);
  }

  lemma CancelledDropsProcesses(s: State)
    requires Reachable(s) && s.collector.Cancelled?
    ensures s.procs == [] && (NoInnerClosers(s) ==> s.closed == s.closers)
  {
    ReachableInv(s);
  }

  // ----- what the inner commands returned

  /** The processes that the inner commands returned in a run, in the order of their
      return. */
  function Returned(acts: seq<Action>): seq<nat> {
    if acts == [] then [] else ReturnedBy(acts[0]) + Returned(acts[1..])
  }

  /** Some inner command returned an error or panicked. */
  predicate SomeFailure(acts: seq<Action>) {
    exists a :: a in acts && ((a.Return? && a.innerFailed) || a.Panic?)
  }

  function Holding(w: Worker): seq<nat> {
    if w.Running? then [] else w.result.procs
  }

  /** The processes that the workers hold or have handed over. */
  ghost function Held(ws: seq<Worker>): multiset<nat> {
    if ws == [] then multiset{} else Held(ws[..|ws| - 1]) + multiset(Holding(ws[|ws| - 1]))
  }

  predicate HasFailed(w: Worker) {
    !w.Running? && w.result.failed
  }

  predicate SomeHasFailed(ws: seq<Worker>) {
    exists w :: 0 <= w < |ws| && HasFailed(ws[w])
  }

  lemma {:induction false} HeldUpdated(ws: seq<Worker>, w: nat, new': Worker)
    requires w < |ws|
    ensures Held(ws[w := new']) + multiset(Holding(ws[w])) == Held(ws) + multiset(Holding(new'))
  {
    hide Holding;
    var n := |ws| - 1;
    var us := ws[w := new'];
    if w < n {
      HeldUpdated(ws[..n], w, new');
      assert us[..n] == ws[..n][w := new'] && us[n] == ws[n] && ws[..n][w] == ws[w];
      Rearranged(Held(us[..n]), multiset(Holding(ws[n])), multiset(Holding(ws[w])));
      Rearranged(Held(ws[..n]), multiset(Holding(ws[n])), multiset(Holding(new')));
    } else {
      assert us[..n] == ws[..n];
      Rearranged(Held(ws[..n]), multiset(Holding(ws[n])), multiset(Holding(new')));
    }
  }

  lemma Subtracted(a: multiset<nat>, b: multiset<nat>, held: seq<nat>, more: seq<nat>)
    requires a + multiset(held) == b + multiset(held + more)
    ensures a == b + multiset(more)
  {
    forall x ensures a[x] == (b + multiset(more))[x] {
      assert (a + multiset(held))[x] == (b + multiset(held + more))[x];
    }
  }

  lemma Rearranged(a: multiset<nat>, b: multiset<nat>, c: multiset<nat>)
    ensures a + b + c == a + c + b
  {
  }

  /** The processes that an action returns. */
  function ReturnedBy(a: Action): seq<nat> {
    if a.Return? then a.innerProcs else []
  }

  lemma WorkerUpdated(s: State, a: Action)
    requires Enabled(s, a) && (a.Return? || a.Panic? || a.Send? || a.GiveUp?)
    ensures a.worker < |s.workers| == |Next(s, a).workers|
    ensures Next(s, a).workers == s.workers[a.worker := Next(s, a).workers[a.worker]]
    ensures Holding(Next(s, a).workers[a.worker]) == Holding(s.workers[a.worker]) + ReturnedBy(a)
  {
  }

  /** An action adds to what is held what it returns. */
  lemma HeldBy(s: State, a: Action)
    requires Enabled(s, a)
    ensures Held(Next(s, a).workers) == Held(s.workers) + multiset(ReturnedBy(a))
  {
    if a.Return? || a.Panic? || a.Send? || a.GiveUp? {
      hide Enabled, Next, Held, Holding, ReturnedBy;
      WorkerUpdated(s, a);
      HeldUpdated(s.workers, a.worker, Next(s, a).workers[a.worker]);
      Subtracted(Held(Next(s, a).workers), Held(s.workers), Holding(s.workers[a.worker]), ReturnedBy(a));
    } else {
      hide Held, Enabled;
    }
  }

  lemma FailedBy(s: State, a: Action)
    requires Enabled(s, a)
    ensures SomeHasFailed(Next(s, a).workers) <==>
              SomeHasFailed(s.workers) || (a.Return? && a.innerFailed) || a.Panic?
  {
    var t := Next(s, a);
    if w :| 0 <= w < |s.workers| && HasFailed(s.workers[w]) {
      assert HasFailed(t.workers[w]);
    }
    if (a.Return? && a.innerFailed) || a.Panic? {
      assert HasFailed(t.workers[a.worker]);
    }
    if w :| 0 <= w < |t.workers| && HasFailed(t.workers[w]) {
      assert t.workers[w] == s.workers[w] || w == a.worker;
      assert !(a.Return? || a.Panic?) ==> HasFailed(s.workers[w]);
    }
  }

  lemma SetupStays(s: State, a: Action)
    requires Enabled(s, a)
    ensures |Next(s, a).workers| == |s.workers|
    ensures Next(s, a).ignoreError == s.ignoreError && Next(s, a).initialProcs == s.initialProcs
  {
  }

  lemma ReturnedFirst(acts: seq<Action>)
    requires acts != []
    ensures multiset(Returned(acts)) == multiset(ReturnedBy(acts[0])) + multiset(Returned(acts[1..]))
  {
  }

  lemma {:induction false} RunHolds(s: State, acts: seq<Action>)
    requires IsRun(s, acts)
    ensures var t := After(s, acts);
            && |t.workers| == |s.workers| && t.ignoreError == s.ignoreError && t.initialProcs == s.initialProcs
            && Held(t.workers) == Held(s.workers) + multiset(Returned(acts))
            && (SomeHasFailed(t.workers) <==> SomeHasFailed(s.workers) || SomeFailure(acts))
    decreases |acts|
  {
    if acts == [] {
      assert Returned(acts) == [];
    } else {
      hide Enabled, Next, Held, SomeHasFailed, SomeFailure, Returned, ReturnedBy;
      SetupStays(s, acts[0]);
      HeldBy(s, acts[0]);
      FailedBy(s, acts[0]);
      RunHolds(Next(s, acts[0]), acts[1..]);
      FailureFirst(acts);
      ReturnedFirst(acts);
    }
  }

  lemma FailureFirst(acts: seq<Action>)
    requires acts != []
    ensures SomeFailure(acts) <==>
              (acts[0].Return? && acts[0].innerFailed) || acts[0].Panic? || SomeFailure(acts[1..])
  {
    assert acts == [acts[0]] + acts[1..];
    assert forall a :: a in acts <==> a == acts[0] || a in acts[1..];
  }

  lemma {:induction false} NothingHeld(n: nat)
    ensures Held(seq(n, i => Running)) == multiset{}
  {
    if n > 0 {
      NothingHeld(n - 1);
      assert seq(n, i => Running)[..n - 1] == seq(n - 1, i => Running);
    }
  }

  lemma {:induction false} HeldIsProcsOf(ws: seq<Worker>)
    requires AllSent(ws)
    ensures Held(ws) == multiset(ProcsOf(Results(ws)))
  {
    if ws != [] {
      var n := |ws| - 1;
      HeldIsProcsOf(ws[..n]);
      assert Results(ws)[..n] == Results(ws[..n]);
    }
  }

  /** How a collector that has not finished comes to its verdict. */
  lemma {:induction false} RunVerdict(s: State, acts: seq<Action>)
    requires IsRun(s, acts)
    ensures var t := After(s, acts);
            && (s.collector.Finished? ==> t.collector == s.collector && t.failed == s.failed && Finish(true) !in acts)
            && (s.collector.Collecting? && t.collector.Finished? ==>
                  (t.collector.ok <==> !t.failed && Finish(true) !in acts))
            && (s.collector.Cancelled? ==> t.collector.Cancelled?)
    decreases |acts|
  {
    if acts != [] {
      RunVerdict(Next(s, acts[0]), acts[1..]);
      assert acts == [acts[0]] + acts[1..];
      assert Finish(true) in acts <==> acts[0] == Finish(true) || Finish(true) in acts[1..];
    }
  }

  /** `RunParallel` over any run, in terms of what the inner commands did: when the
      collector has finished, the command's processes are those it had before and
      all that the inner commands returned; and the result is nil exactly if closing
      succeeded and errors are ignored or no inner command returned an error or
      panicked. */
  lemma RunParallelResult(ignoreError: bool, procs: seq<nat>, closers: seq<nat>, innerClosers: seq<seq<nat>>, acts: seq<Action>)
    requires IsRun(Init(ignoreError, procs, closers, innerClosers), acts)
    requires After(Init(ignoreError, procs, closers, innerClosers), acts).collector.Finished?
    ensures var t := After(Init(ignoreError, procs, closers, innerClosers), acts);
            && multiset(t.procs) == multiset(procs) + multiset(Returned(acts))
            && (t.collector.ok <==> Finish(true) !in acts && (ignoreError || !SomeFailure(acts)))
  {
    hide Reachable, Enabled, Next, Held, SomeHasFailed, SomeFailure, Returned;
    var s := Init(ignoreError, procs, closers, innerClosers);
    var t := After(s, acts);
    Starts(ignoreError, procs, closers, innerClosers, acts);
    Collected(t);
    RunHolds(s, acts);
    RunVerdict(s, acts);
  }

  lemma Starts(ignoreError: bool, procs: seq<nat>, closers: seq<nat>, innerClosers: seq<seq<nat>>, acts: seq<Action>)
    requires IsRun(Init(ignoreError, procs, closers, innerClosers), acts)
    ensures var s := Init(ignoreError, procs, closers, innerClosers);
            Held(s.workers) == multiset{} && !SomeHasFailed(s.workers) && Reachable(After(s, acts))
  {
    NothingHeld(|innerClosers|);
    assert EndsIn(ignoreError, procs, closers, innerClosers, acts,
                  After(Init(ignoreError, procs, closers, innerClosers), acts));
  }

  lemma Collected(t: State)
    requires Reachable(t) && t.collector.Finished?
    ensures multiset(t.procs) == multiset(t.initialProcs) + Held(t.workers)
    ensures t.failed <==> !t.ignoreError && SomeHasFailed(t.workers)
  {
    CollectsEverything(t);
    ReachableInv(t);
    hide Sending, Held, ProcsOf, AnyFailed, SomeHasFailed;
    HeldIsProcsOf(t.workers);
    FailuresTaken(t);
  }

  lemma FailuresTaken(s: State)
    requires AllSent(s.workers) && multiset(s.taken) == multiset(Results(s.workers))
    ensures AnyFailed(s.taken) <==> SomeHasFailed(s.workers)
  {
    AnyFailedMeans(s.taken);
    var rs := Results(s.workers);
    assert forall r :: r in s.taken <==> r in multiset(s.taken);
    assert forall r :: r in rs <==> r in multiset(rs);
    if w :| 0 <= w < |s.workers| && HasFailed(s.workers[w]) {
      assert rs[w].failed && rs[w] in rs;
    }
    if r :| r in rs && r.failed {
      var w :| 0 <= w < |rs| && rs[w] == r;
      assert HasFailed(s.workers[w]);
    }
  }

  // ----- the inner commands' options

  lemma {:induction false} ClosersStay(s: State, acts: seq<Action>)
    requires IsRun(s, acts)
    ensures After(s, acts).closers == s.closers && After(s, acts).innerClosers == s.innerClosers
    decreases |acts|
  {
    if acts != [] {
      ClosersStay(Next(s, acts[0]), acts[1..]);
    }
  }

  /** Building the inner commands: each gets a copy of the command's options, and
      with these, in every run, the command's closers have been called exactly once
      when the collector stops collecting, and never before. */
  method Prepare(owner: Create, n: nat, ignoreError: bool, procs: seq<nat>) returns (inner: seq<Create>, s: State)
    ensures |inner| == |s.workers| == |s.innerClosers| == n && Apart(inner, owner)
    ensures (forall o :: o in inner ==> fresh(o)) && NoInnerClosers(s)
    ensures s == Init(ignoreError, procs, owner.closers, s.innerClosers)
    ensures forall acts ::
              IsRun(s, acts) ==>
                After(s, acts).closed == if After(s, acts).collector.Collecting? then [] else owner.closers
  {
    inner := CopyForAll(owner, n);
    var innerClosers: seq<seq<nat>> := [];
    for i := 0 to n
      invariant |innerClosers| == i && forall j :: 0 <= j < i ==> innerClosers[j] == []
    {
      assert inner[i] in inner;
      innerClosers := innerClosers + [inner[i].closers];
    }
    s := Init(ignoreError, procs, owner.closers, innerClosers);
    forall acts | IsRun(s, acts)
      ensures After(s, acts).closed == if After(s, acts).collector.Collecting? then [] else owner.closers
    {
      InvInit(ignoreError, procs, owner.closers, innerClosers);
      InvRun(s, acts);
      ClosersStay(s, acts);
    }
  }
}
