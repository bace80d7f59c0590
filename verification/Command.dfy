/** Sequential execution of a command's subcommands (`command.go`). */
module Command {
  import opened Wrappers

  /** A subcommand and how its process behaves: whether its arguments can be
      turned into options, whether the process starts, and whether waiting for it
      reports an error. */
  datatype Sub = Malformed | WellFormed(starts: bool, waitFails: bool)

  predicate AllWellFormed(subs: seq<Sub>) {
    forall i :: 0 <= i < |subs| ==> subs[i].WellFormed?
  }

  predicate WaitFails(subs: seq<Sub>, p: nat) {
    p < |subs| && subs[p].WellFormed? && subs[p].waitFails
  }

  /** How subcommands are run: whether they are waited for, and whether a process
      that the command already held reports an error when it is. */
  datatype Mode = Mode(background: bool, stale: bool)

  /** This subcommand fails of its own, whatever the others do. */
  predicate Fails(s: Sub, m: Mode) {
    s.Malformed? || !s.starts || (!m.background && (s.waitFails || m.stale))
  }

  /** One of the subcommands up to `i` has started and its process reports an error. */
  predicate SomeWaitFails(subs: seq<Sub>, i: nat) {
    exists j :: 0 <= j <= i && WaitFails(subs, j) && subs[j].starts
  }

  /** The attempt of a subcommand fails, after those before it were attempted: in
      the foreground it waits for all processes that are held. */
  predicate AttemptFails(subs: seq<Sub>, m: Mode, i: nat)
    requires i < |subs|
  {
    || subs[i].Malformed? || !subs[i].starts
    || (!m.background && (m.stale || SomeWaitFails(subs, i)))
  }

  /** How many of the first `n` subcommands are attempted when the first failure
      stops the run. */
  function Attempts(subs: seq<Sub>, m: Mode, n: nat): (k: nat)
    requires n <= |subs|
    ensures k <= n
  {
    if n == 0 then 0
    else
      var before := Attempts(subs, m, n - 1);
      if before < n - 1 || (n > 1 && AttemptFails(subs, m, n - 2)) then before else n
  }

  lemma {:induction false} AttemptsUpToFailure(subs: seq<Sub>, m: Mode, n: nat)
    requires n <= |subs|
    ensures var k := Attempts(subs, m, n);
            && k <= n
            && (forall i :: 0 <= i < k - 1 ==> !AttemptFails(subs, m, i))
            && (k < n ==> k > 0 && AttemptFails(subs, m, k - 1))
  {
    if n > 0 {
      AttemptsUpToFailure(subs, m, n - 1);
    }
  }

  /** The number of attempts, seen after `idx` subcommands without a failure. */
  lemma AttemptsSoFar(subs: seq<Sub>, m: Mode, idx: nat)
    requires idx <= |subs| && forall i :: 0 <= i < idx ==> !AttemptFails(subs, m, i)
    ensures idx <= Attempts(subs, m, |subs|) <= |subs|
    ensures idx < |subs| ==> idx < Attempts(subs, m, |subs|)
    ensures idx < |subs| && AttemptFails(subs, m, idx) ==> Attempts(subs, m, |subs|) == idx + 1
  {
    hide AttemptFails;
    AttemptsUpToFailure(subs, m, |subs|);
  }

  /** The wait that follows the start of subcommand `at - 1` is cut short: it
      reports an error whatever the processes do. */
  function CutShort(subs: seq<Sub>, at: nat): seq<Sub> {
    if 0 < at <= |subs| && subs[at - 1].WellFormed? then subs[at - 1 := subs[at - 1].(waitFails := true)] else subs
  }

  function UpTo(n: nat): seq<nat> {
    seq(n, i => i)
  }

  /** Those of the first `n` subcommands whose processes started. */
  function Started(subs: seq<Sub>, n: nat): seq<nat>
    requires n <= |subs|
  {
    if n == 0 then []
    else Started(subs, n - 1) + (if subs[n - 1].WellFormed? && subs[n - 1].starts then [n - 1] else [])
  }

  lemma NoneYet(subs: seq<Sub>)
    ensures Started(subs, 0) == [] && UpTo(0) == []
  {
  }

  lemma UpToNext(n: nat)
    ensures UpTo(n + 1) == UpTo(n) + [n]
  {
  }

  lemma OneMore(subs: seq<Sub>, n: nat)
    requires n < |subs|
    ensures Started(subs, n + 1) == Started(subs, n) + if subs[n].WellFormed? && subs[n].starts then [n] else []
  {
  }

  lemma {:induction false} StartedHas(subs: seq<Sub>, n: nat, i: nat)
    requires n <= |subs|
    ensures i in Started(subs, n) <==> i < n && subs[i].WellFormed? && subs[i].starts
  {
    if n > 0 {
      StartedHas(subs, n - 1, i);
    }
  }

  class Command {
    const subs: seq<Sub>
    const background: bool
    const continueOnError: bool
    const ignoreError: bool
    const closeFails: bool
    const postHook: Option<(nat, bool) -> bool>  // whether it reports an error, from the attempt's

    var procs: seq<nat>      // the subcommands whose processes are held
    var attempted: seq<nat>  // history: subcommands passed to `exec`
    var closes: nat          // history: calls of `Close`

    constructor (subs: seq<Sub>, background: bool, continueOnError: bool, ignoreError: bool, closeFails: bool,
                 postHook: Option<(nat, bool) -> bool>)
      ensures this.subs == subs && this.background == background && this.continueOnError == continueOnError
      ensures this.ignoreError == ignoreError && this.closeFails == closeFails
      ensures this.postHook == postHook
      ensures procs == [] && attempted == [] && closes == 0
    {
      this.subs, this.background, this.continueOnError := subs, background, continueOnError;
      this.ignoreError, this.closeFails, this.postHook := ignoreError, closeFails, postHook;
      procs, attempted, closes := [], [], 0;
    }

    method Close() returns (ok: bool)
      modifies this`closes
      ensures closes == old(closes) + 1 && ok == !closeFails
    {
      closes := closes + 1;
      ok := !closeFails;
    }

    method GetCreateOpts() returns (ok: bool)
      ensures ok <==> AllWellFormed(subs)
    {
      var errors, out := 0, 0;
      for i := 0 to |subs|
        invariant errors == 0 <==> forall j :: 0 <= j < i ==> subs[j].WellFormed?
        invariant errors >= 0
      {
        if subs[i].Malformed? {
          errors := errors + 1;
          continue;
        }
        out := out + 1;
      }
      ok := errors == 0;
    }

    /** `exec` waits for every process the command holds, not only for the one it
        just started; `cut` says that the context is cancelled while some of them
        are still running. */
    method Exec(idx: nat, cut: bool) returns (failed: bool)
      requires idx < |subs| && subs[idx].WellFormed?
      modifies this`procs, this`attempted
      ensures attempted == old(attempted) + [idx]
      ensures procs == old(procs) + if subs[idx].starts then [idx] else []
      ensures failed <==> !subs[idx].starts || (!background && (cut || exists p :: p in procs && WaitFails(subs, p)))
    {
      attempted := attempted + [idx];
      if !subs[idx].starts {
        return true;
      }
      procs := procs + [idx];
      failed := false;
      if !background {
        for k := 0 to |procs|
          invariant failed <==> exists p :: p in procs[..k] && WaitFails(subs, p)
        {
          assert procs[..k + 1] == procs[..k] + [procs[k]];
          failed := failed || WaitFails(subs, procs[k]);
        }
        assert procs[..|procs|] == procs;
        failed := failed || cut;
      }
    }

    /** Whether a process held from before reports an error. */
    ghost function ModeNow(): Mode
      reads this
    {
      Mode(background, exists p :: p in procs && WaitFails(subs, p))
    }

    /** How many subcommands `Run` attempts when nothing cancels it. */
    function Reach(effective: seq<Sub>, m: Mode): nat {
      if continueOnError then |effective| else Attempts(effective, m, |effective|)
    }

    /** The error that counts for an attempt is what the post hook makes of it. */
    predicate Reported(i: nat, failed: bool) {
      if postHook.Some? then postHook.value(i, failed) else failed
    }

    /** `Run`.  `cancelledAt` is the first subcommand before which the context is
        found done, and `cut` says whether that had already cut short the wait
        before it.  With a prerequisite that is not met, or with a run function,
        the command is neither run nor closed.  Otherwise nothing starts if a
        subcommand is malformed; the subcommands up to and including the first
        attempt that fails are attempted in order, or all of them with
        `ContinueOnError`, as far as cancellation allows; the result is nil iff no
        subcommand was left out because of cancellation, closing succeeds, and
        either errors are ignored or no attempt reports one, where a post hook decides
        what an attempt reports; and the command is closed once on every exit.  So
        without a hook or cancellation the result only depends on how each subcommand
        does: it is nil iff closing succeeds, and errors are ignored or every
        process starts and, in the foreground, no wait reports an error. */
    method Run(prerequisite: bool, runFunc: Option<bool>, cancelledAt: nat, cut: bool) returns (ok: bool)
      modifies this`procs, this`attempted, this`closes
      ensures !prerequisite || runFunc.Some? ==>
                && procs == old(procs) && attempted == old(attempted) && closes == old(closes)
                && ok == (!prerequisite || runFunc.value)
      ensures prerequisite && runFunc.None? ==> closes == old(closes) + 1
      ensures prerequisite && runFunc.None? && !AllWellFormed(subs) ==>
                !ok && attempted == old(attempted) && procs == old(procs)
      ensures prerequisite && runFunc.None? && AllWellFormed(subs) ==>
                var m := old(ModeNow());
                var effective := if cut then CutShort(subs, cancelledAt) else subs;
                var n := Reach(effective, m);
                var done := if cancelledAt < n then cancelledAt else n;
                && attempted == old(attempted) + UpTo(done)
                && procs == old(procs) + Started(subs, done)
                && (postHook.None? ==>
                      (ok <==> cancelledAt >= n && !closeFails
                               && (ignoreError || forall i :: 0 <= i < done ==> !AttemptFails(effective, m, i))))
                && (postHook.Some? ==>
                      (ok <==> cancelledAt >= n && !closeFails
                               && (ignoreError
                                   || forall i :: 0 <= i < done ==> !postHook.value(i, AttemptFails(effective, m, i)))))
      ensures prerequisite && runFunc.None? && AllWellFormed(subs) && postHook.None? && !cut && cancelledAt >= |subs| ==>
                (ok <==> !closeFails && (ignoreError
                           || forall i :: 0 <= i < |subs| ==>
                                subs[i].starts
                                && (background || (!subs[i].waitFails && !old(HoldsFailing())))))
    {
      if !prerequisite {
        return true;
      }
      if runFunc.Some? {
        return runFunc.value;
      }
      var built := GetCreateOpts();
      if !built {
        var closed := Close();
        return false;
      }
      hide AttemptFails, CutShort, Attempts;
      ghost var m := ModeNow();
      StaleNow();
      ok := AttemptAll(cancelledAt, cut);
      NoneFails(m);
    }

    /** A process that the command holds belongs to a subcommand whose wait reports
        an error. */
    ghost predicate HoldsFailing()
      reads this`procs
    {
      exists p :: p in procs && p < |subs| && subs[p].WellFormed? && subs[p].waitFails
    }

    lemma StaleNow()
      ensures ModeNow() == Mode(background, HoldsFailing())
    {
      if p :| p in procs && WaitFails(subs, p) {
        assert HoldsFailing();
      }
      if HoldsFailing() {
        var p :| p in procs && p < |subs| && subs[p].WellFormed? && subs[p].waitFails;
        assert WaitFails(subs, p);
      }
    }

    /** No attempt that is reached fails exactly if no subcommand fails of its own. */
    lemma NoneFails(m: Mode)
      requires AllWellFormed(subs)
      ensures (forall i :: 0 <= i < Reach(subs, m) ==> !AttemptFails(subs, m, i))
              <==> (forall i :: 0 <= i < |subs| ==>
                      subs[i].starts && (m.background || (!subs[i].waitFails && !m.stale)))
    {
      FailsIffSomeFailed(subs, m, |subs|);
      AttemptsUpToFailure(subs, m, |subs|);
      hide AttemptFails, Attempts;
      assert forall i :: 0 <= i < |subs| ==>
        (Fails(subs[i], m) <==> !(subs[i].starts && (m.background || (!subs[i].waitFails && !m.stale))));
    }

    /** `exec` of one subcommand, after those before it. */
    method AttemptOne(idx: nat, cancelledAt: nat, cut: bool, ghost held: seq<nat>, ghost m: Mode) returns (failed: bool)
      requires AllWellFormed(subs) && idx < |subs| && idx < cancelledAt
      requires procs == held + Started(subs, idx)
      requires m == Mode(background, exists p :: p in held && WaitFails(subs, p))
      modifies this`procs, this`attempted
      ensures attempted == old(attempted) + [idx]
      ensures procs == held + Started(subs, idx + 1)
      ensures failed <==> AttemptFails(if cut then CutShort(subs, cancelledAt) else subs, m, idx)
    {
      failed := Exec(idx, cut && idx + 1 == cancelledAt);
      OneMore(subs, idx);
      hide Started, AttemptFails, WaitFails, SomeWaitFails, CutShort;
      assert procs == held + Started(subs, idx + 1);
      AttemptFailsAsSpecified(subs, held, m, idx, cancelledAt, cut, failed);
    }

    /** `Run` once the options of all subcommands are there. */
    method AttemptAll(cancelledAt: nat, cut: bool) returns (ok: bool)
      requires AllWellFormed(subs)
      modifies this`procs, this`attempted, this`closes
      ensures closes == old(closes) + 1
      ensures var m := old(ModeNow());
              var effective := if cut then CutShort(subs, cancelledAt) else subs;
              var n := Reach(effective, m);
              var done := if cancelledAt < n then cancelledAt else n;
              && attempted == old(attempted) + UpTo(done)
              && procs == old(procs) + Started(subs, done)
              && (ok <==> cancelledAt >= n && !closeFails
                          && (ignoreError
                              || forall i :: 0 <= i < done ==> !Reported(i, AttemptFails(effective, m, i))))
    {
      ghost var m, held := ModeNow(), procs;
      ghost var effective := if cut then CutShort(subs, cancelledAt) else subs;
      assert |effective| == |subs|;
      hide AttemptFails, WaitFails, SomeWaitFails, CutShort, Reported, Attempts, Started, UpTo;
      NoneYet(subs);
      var errors := 0;
      for idx := 0 to |subs|
        invariant closes == old(closes)
        invariant attempted == old(attempted) + UpTo(idx)
        invariant procs == held + Started(subs, idx)
        invariant idx <= cancelledAt && |effective| == |subs|
        invariant continueOnError || forall i :: 0 <= i < idx ==> !AttemptFails(effective, m, i)
        invariant errors >= 0
        invariant errors == 0 <==>
                  ignoreError || forall i :: 0 <= i < idx ==> !Reported(i, AttemptFails(effective, m, i))
      {
        if !continueOnError {
          AttemptsSoFar(effective, m, idx);
        }
        if cancelledAt <= idx {
          var closed := Close();
          return false;
        }
        var failed := AttemptOne(idx, cancelledAt, cut, held, m);
        UpToNext(idx);
        if !ignoreError && Reported(idx, failed) {
          errors := errors + 1;
        }
        if failed && !continueOnError {
          var closed := Close();
          return closed && errors == 0;
        }
      }
      if !continueOnError {
        AttemptsSoFar(effective, m, |subs|);
      }
      var closed := Close();
      ok := closed && errors == 0;
    }
  }

  /** Waiting for all that is held amounts to the specified failure. */
  lemma AttemptFailsAsSpecified(subs: seq<Sub>, held: seq<nat>, m: Mode, idx: nat, cancelledAt: nat, cut: bool, failed: bool)
    requires idx < |subs| && idx < cancelledAt && AllWellFormed(subs)
    requires m.stale <==> exists p :: p in held && WaitFails(subs, p)
    requires failed <==>
             || !subs[idx].starts
             || (!m.background
                 && ((cut && idx + 1 == cancelledAt) || exists p :: p in held + Started(subs, idx + 1) && WaitFails(subs, p)))
    ensures failed <==> AttemptFails(if cut then CutShort(subs, cancelledAt) else subs, m, idx)
  {
    var effective := if cut then CutShort(subs, cancelledAt) else subs;
    HeldWaits(subs, held, m, idx);
    if cut {
      CutWaits(subs, idx, cancelledAt);
    }
    hide SomeWaitFails, WaitFails, Started;
  }

  lemma HeldWaits(subs: seq<Sub>, held: seq<nat>, m: Mode, idx: nat)
    requires idx < |subs|
    requires m.stale <==> exists p :: p in held && WaitFails(subs, p)
    ensures (exists p :: p in held + Started(subs, idx + 1) && WaitFails(subs, p)) <==> m.stale || SomeWaitFails(subs, idx)
  {
    hide Started;
    if p :| p in held + Started(subs, idx + 1) && WaitFails(subs, p) {
      StartedHas(subs, idx + 1, p);
    }
    if p :| p in held && WaitFails(subs, p) {
      assert p in held + Started(subs, idx + 1);
    }
    if SomeWaitFails(subs, idx) {
      var j :| 0 <= j <= idx && WaitFails(subs, j) && subs[j].starts;
      StartedHas(subs, idx + 1, j);
      assert j in held + Started(subs, idx + 1);
    }
  }

  lemma CutWaits(subs: seq<Sub>, idx: nat, cancelledAt: nat)
    requires idx < |subs| && idx < cancelledAt && AllWellFormed(subs)
    ensures AllWellFormed(CutShort(subs, cancelledAt)) && CutShort(subs, cancelledAt)[idx].starts == subs[idx].starts
    ensures subs[idx].starts ==>
              (SomeWaitFails(CutShort(subs, cancelledAt), idx) <==> SomeWaitFails(subs, idx) || idx + 1 == cancelledAt)
  {
    var effective := CutShort(subs, cancelledAt);
    if idx + 1 == cancelledAt && subs[idx].starts {
      assert WaitFails(effective, idx);
    }
    if SomeWaitFails(subs, idx) {
      var j :| 0 <= j <= idx && WaitFails(subs, j) && subs[j].starts;
      assert WaitFails(effective, j);
    }
    if SomeWaitFails(effective, idx) && idx + 1 != cancelledAt {
      var j :| 0 <= j <= idx && WaitFails(effective, j) && effective[j].starts;
      assert WaitFails(subs, j);
    }
  }

  /** Although an attempt waits for all held processes, the first that fails is the
      first subcommand that fails of its own, so without a post hook the result
      only depends on how each subcommand does. */
  lemma {:induction false} FailsIffSomeFailed(subs: seq<Sub>, m: Mode, n: nat)
    requires n <= |subs|
    ensures (exists i :: 0 <= i < n && AttemptFails(subs, m, i)) <==> (exists i :: 0 <= i < n && Fails(subs[i], m))
  {
    if n > 0 {
      FailsIffSomeFailed(subs, m, n - 1);
      if AttemptFails(subs, m, n - 1) && !Fails(subs[n - 1], m) {
        var j :| 0 <= j <= n - 1 && WaitFails(subs, j) && subs[j].starts;
        assert Fails(subs[j], m);
      }
      if subs[n - 1].WellFormed? && subs[n - 1].waitFails {
        assert WaitFails(subs, n - 1);
      }
    }
  }
}
