/** Creation options (`options/create.go`): timeout normalisation, copying, the
    environment of spawned processes, and closers. */
module CreateOptions {
  import opened Wrappers

  // ----- timeouts

  const SECOND := 1_000_000_000  // in nanoseconds
  const TWO_63 := 0x8000_0000_0000_0000
  const TWO_64 := 0x1_0000_0000_0000_0000
  const MAX_WHOLE_SECONDS := 9_223_372_036

  predicate IsInt64(x: int) {
    -TWO_63 <= x < TWO_63
  }

  /** Two's-complement wrap-around. */
  function Wrap64(x: int): int {
    (x + TWO_63) % TWO_64 - TWO_63
  }

  /** `int(d.Seconds())` of a positive duration.  `Seconds` is a floating-point
      number, exact for whole seconds; a fraction close to the next second may be
      rounded up to it, which `up` decides. */
  function TruncSeconds(d: int, up: bool): int {
    d / SECOND + if up && d % SECOND != 0 then 1 else 0
  }

  datatype Timeouts = Timeouts(timeout: int, secs: int)

  /** `Validate` finds nothing wrong with the timeout fields. */
  predicate Accepts(t: Timeouts) {
    && t.timeout >= 0
    && !(0 < t.timeout < SECOND)
    && t.secs >= 0
    && (t.timeout > 0 && t.secs > 0 ==> Wrap64(t.secs * SECOND) == t.timeout)
  }

  /** What `Validate` then makes of them. */
  function Normalise(t: Timeouts, up: bool): Timeouts {
    if t.secs != 0 && t.timeout == 0 then t.(timeout := Wrap64(t.secs * SECOND))
    else if t.timeout != 0 then t.(secs := TruncSeconds(t.timeout, up))
    else t
  }

  /** It is the 64-bit number that differs by a multiple of the modulus, of which there
      is one. */
  lemma WrapIsOnly(x: int, w: int)
    ensures w == Wrap64(x) <==> -0x8000_0000_0000_0000 <= w < 0x8000_0000_0000_0000 && (x - w) % 0x1_0000_0000_0000_0000 == 0
  {
    var m := 0x1_0000_0000_0000_0000;
    var q := (x + TWO_63) / m;
    assert x - Wrap64(x) == q * m;
    if (x - w) % m == 0 && IsInt64(w) {
      var k := (x - w) / m;
      assert x - w == k * m;
      assert Wrap64(x) - w == (k - q) * m;
    }
  }

  lemma WrapSmall(x: int)
    requires IsInt64(x)
    ensures Wrap64(x) == x
  {
  }

  lemma WrapIsInt64(x: int)
    ensures IsInt64(Wrap64(x))
  {
  }

  /** What an accepted `Validate` makes of a timeout that was given in nanoseconds:
      the seconds are at most the largest whole number of seconds, or one more when
      they were rounded up. */
  lemma NormalisedSeconds(timeout: int, up: bool)
    requires IsInt64(timeout) && timeout >= SECOND
    ensures var q := TruncSeconds(timeout, up);
            && 0 < q <= MAX_WHOLE_SECONDS + 1
            && (timeout % SECOND == 0 ==> Wrap64(q * SECOND) == timeout)
            && (timeout % SECOND != 0 ==> Wrap64(q * SECOND) != timeout)
  {
    var q := timeout / SECOND;
    assert timeout == q * SECOND + timeout % SECOND;
    assert 0 < q <= MAX_WHOLE_SECONDS;
    WrapSmall(q * SECOND);
    if timeout % SECOND != 0 && up {
      assert (q + 1) * SECOND == q * SECOND + SECOND;
      if (q + 1) * SECOND < TWO_63 {
        WrapSmall((q + 1) * SECOND);
      }
    }
  }

  /** Exactly when a second `Validate` accepts what a first one made of the timeout
      fields, for every 64-bit value.  Given in nanoseconds, iff it is a whole
      number of seconds; given in seconds, iff their product, which may have
      overflowed, is zero or at least a second.  And exactly when an accepting
      second `Validate` changes nothing: unless the seconds are so many that their
      product overflowed to something other than zero. */
  lemma SecondValidationExactly(t: Timeouts, up: bool, again: bool)
    requires IsInt64(t.timeout) && IsInt64(t.secs) && Accepts(t)
    ensures var n := Normalise(t, up);
            && (Accepts(n) <==>
                  if t.timeout > 0 then n.timeout % SECOND == 0 else n.timeout == 0 || n.timeout >= SECOND)
            && (Accepts(n) ==>
                  (Normalise(n, again) == n <==> t.timeout > 0 || t.secs <= MAX_WHOLE_SECONDS || n.timeout == 0))
  {
    var n := Normalise(t, up);
    if t.timeout > 0 {
      NormalisedSeconds(t.timeout, up);
    } else {
      WrapIsInt64(t.secs * SECOND);
      if n.timeout >= SECOND {
        NormalisedSeconds(n.timeout, again);
        if t.secs <= MAX_WHOLE_SECONDS {
          WrapSmall(t.secs * SECOND);
        }
      }
    }
  }

  /** After an accepted `Validate`, a second one succeeds iff the normalised
      timeout is a whole number of seconds, and then changes neither field. */
  lemma SecondValidation(t: Timeouts, up: bool, again: bool)
    requires IsInt64(t.timeout) && IsInt64(t.secs) && t.secs <= MAX_WHOLE_SECONDS && Accepts(t)
    ensures Accepts(Normalise(t, up)) <==> Normalise(t, up).timeout % SECOND == 0
    ensures Accepts(Normalise(t, up)) ==> Normalise(Normalise(t, up), again) == Normalise(t, up)
  {
    SecondValidationExactly(t, up, again);
    if t.timeout == 0 {
      WrapSmall(t.secs * SECOND);
    }
  }

  /** `NewProcess` validates, and the constructor it calls validates again inside
      `Resolve`: a timeout with a fraction of a second is always rejected. */
  lemma FractionsRejected(t: Timeouts, up: bool)
    requires IsInt64(t.timeout) && IsInt64(t.secs) && t.secs <= MAX_WHOLE_SECONDS
    ensures Accepts(t) && Accepts(Normalise(t, up)) <==> Accepts(t) && t.timeout % SECOND == 0
  {
    if Accepts(t) {
      SecondValidation(t, up, up);
      if t.timeout == 0 {
        WrapSmall(t.secs * SECOND);
      }
    }
  }

  /** The second `Validate` accepts exactly the whole numbers of seconds. */
  predicate WholeSecondsDecide(t: Timeouts, up: bool) {
    Accepts(Normalise(t, up)) <==> Normalise(t, up).timeout % SECOND == 0
  }

  /** Without the bound on `TimeoutSecs` that fails, exactly when seconds were
      given whose product overflowed to a fraction above a second, which is
      accepted, or to a negative whole number of seconds, which is not. */
  lemma WholeSecondsFail(t: Timeouts, up: bool)
    requires IsInt64(t.timeout) && IsInt64(t.secs) && Accepts(t)
    ensures var w := Wrap64(t.secs * SECOND);
            !WholeSecondsDecide(t, up) <==>
              t.timeout == 0 && ((w > SECOND && w % SECOND != 0) || (w < 0 && w % SECOND == 0))
  {
    SecondValidationExactly(t, up, up);
  }

  /** Both happen, and so does a rejected fraction. */
  lemma OverflowingSeconds(up: bool)
    ensures var t := Timeouts(0, 18_446_744_075);
            && Accepts(t) && !WholeSecondsDecide(t, up) && Accepts(Normalise(t, up))
            && Normalise(Normalise(t, up), false) == Timeouts(1_290_448_384, 1)
    ensures var t := Timeouts(0, 36_028_797_018_963_967);
            Accepts(t) && !WholeSecondsDecide(t, up) && Normalise(t, up).timeout == -SECOND
    ensures var t := Timeouts(0, 9_223_372_037);
            Accepts(t) && WholeSecondsDecide(t, up) && !Accepts(Normalise(t, up))
  {
    assert Wrap64(18_446_744_075 * SECOND) == 1_290_448_384;
    assert Wrap64(36_028_797_018_963_967 * SECOND) == -SECOND;
    assert Wrap64(9_223_372_037 * SECOND) == -9_223_372_036_709_551_616;
    hide Wrap64;
    SecondValidationExactly(Timeouts(0, 18_446_744_075), up, false);
    SecondValidationExactly(Timeouts(0, 36_028_797_018_963_967), up, false);
    SecondValidationExactly(Timeouts(0, 9_223_372_037), up, false);
  }

  // ----- storage

  /** A Go map: options that share one see each other's writes. */
  class Env {
    var vars: map<string, string>

    constructor (vars: map<string, string>)
      ensures this.vars == vars
    {
      this.vars := vars;
    }
  }

  /** History of the closer functions that were called. */
  class Recorder {
    var ran: seq<nat>

    constructor ()
      ensures ran == []
    {
      ran := [];
    }
  }

  const ENVIRON_ID := "JASPER_ID"

  class Create {
    var env: Env?
    var tags: array?<string>
    var timeouts: Timeouts
    var closers: seq<nat>

    constructor (env: Env?, tags: array?<string>, timeouts: Timeouts)
      ensures this.env == env && this.tags == tags && this.timeouts == timeouts && closers == []
    {
      this.env, this.tags, this.timeouts, this.closers := env, tags, timeouts, [];
    }

    /** `othersOk` is what the checks of the other fields say. */
    method Validate(othersOk: bool, up: bool) returns (ok: bool)
      modifies this`timeouts
      ensures ok <==> othersOk && Accepts(old(timeouts))
      ensures timeouts == if ok then Normalise(old(timeouts), up) else old(timeouts)
      ensures ok <==>
                && othersOk && old(timeouts).secs >= 0
                && (old(timeouts).timeout == 0 || old(timeouts).timeout >= 1_000_000_000)
                && (old(timeouts).timeout == 0 || old(timeouts).secs == 0
                    || old(timeouts).timeout == Wrap64(old(timeouts).secs * 1_000_000_000))
      ensures ok && old(timeouts).timeout == 0 ==>
                timeouts.secs == old(timeouts).secs && timeouts.timeout == Wrap64(old(timeouts).secs * 1_000_000_000)
      ensures ok && old(timeouts).timeout != 0 ==>
                && timeouts.timeout == old(timeouts).timeout
                && timeouts.secs * 1_000_000_000 <= timeouts.timeout + (if up then 999_999_999 else 0)
                && timeouts.timeout <= timeouts.secs * 1_000_000_000 + (if up then 0 else 999_999_999)
    {
      var errors := 0;
      if !othersOk {
        errors := errors + 1;
      }
      if timeouts.timeout < 0 {
        errors := errors + 1;
      }
      if timeouts.timeout > 0 && timeouts.timeout < SECOND {
        errors := errors + 1;
      }
      if timeouts.secs < 0 {
        errors := errors + 1;
      }
      if timeouts.timeout > 0 && timeouts.secs > 0 {
        if Wrap64(timeouts.secs * SECOND) != timeouts.timeout {
          errors := errors + 1;
        }
      }
      if errors > 0 {
        return false;
      }
      if timeouts.secs != 0 && timeouts.timeout == 0 {
        timeouts := timeouts.(timeout := Wrap64(timeouts.secs * SECOND));
      } else if timeouts.timeout != 0 {
        timeouts := timeouts.(secs := TruncSeconds(timeouts.timeout, up));
      }
      return true;
    }

    method AddEnvVar(k: string, v: string)
      modifies this`env, env
      ensures env != null && (old(env) != null ==> env == old(env)) && (old(env) == null ==> fresh(env))
      ensures env.vars == (if old(env) == null then map[] else old(env.vars))[k := v]
    {
      if env == null {
        env := new Env(map[]);
      }
      env.vars := env.vars[k := v];
    }

    method RegisterCloser(fn: Option<nat>)
      modifies this`closers
      ensures closers == old(closers) + if fn.Some? then [fn.value] else []
    {
      if fn.None? {
        return;
      }
      closers := closers + [fn.value];
    }

    /** Every closer is called once, in order, whether or not others fail. */
    method Close(rec: Recorder, failing: set<nat>) returns (ok: bool)
      modifies rec
      ensures rec.ran == old(rec.ran) + closers
      ensures ok <==> forall c :: c in closers ==> c !in failing
    {
      ok := true;
      for i := 0 to |closers|
        invariant rec.ran == old(rec.ran) + closers[..i]
        invariant ok <==> forall c :: c in closers[..i] ==> c !in failing
      {
        assert closers[..i + 1] == closers[..i] + [closers[i]];
        rec.ran := rec.ran + [closers[i]];
        ok := ok && closers[i] !in failing;
      }
      assert closers[..|closers|] == closers;
    }

    /** `Resolve`, as far as the closers are concerned: a timeout's cancel
        function is registered before the executor is built, the output's closer
        last.  `executorOk` and `outputOk` say whether building the executor and
        resolving the output succeed. */
    method Resolve(cancelled: bool, othersOk: bool, up: bool, executorOk: bool, outputOk: bool,
                   cancelCloser: nat, outputCloser: nat) returns (ok: bool)
      modifies this`timeouts, this`closers
      ensures ok <==> !cancelled && othersOk && Accepts(old(timeouts)) && executorOk && outputOk
      ensures ok ==> timeouts == Normalise(old(timeouts), up)
      ensures ok ==> closers == old(closers) + (if timeouts.timeout > 0 then [cancelCloser] else []) + [outputCloser]
      ensures !ok ==>
                closers == old(closers) + if !cancelled && othersOk && Accepts(old(timeouts)) && timeouts.timeout > 0
                                          then [cancelCloser] else []
    {
      if cancelled {
        return false;
      }
      var valid := Validate(othersOk, up);
      if !valid {
        return false;
      }
      if timeouts.timeout > 0 {
        closers := closers + [cancelCloser];
      }
      if !executorOk {
        return false;
      }
      if !outputOk {
        return false;
      }
      closers := closers + [outputCloser];
      return true;
    }

    /** A copy has the same contents in storage of its own, and no closers. */
    method Copy() returns (r: Create)
      ensures fresh(r)
      ensures (r.env == null <==> env == null) && (r.tags == null <==> tags == null)
      ensures env != null ==> fresh(r.env) && r.env.vars == env.vars
      ensures tags != null ==> fresh(r.tags) && r.tags[..] == tags[..]
      ensures r.timeouts == timeouts && r.closers == []
    {
      var newTags: array?<string> := null;
      if tags != null {
        var copied := new string[tags.Length];
        for i := 0 to tags.Length
          invariant copied[..i] == tags[..i]
        {
          copied[i] := tags[i];
        }
        assert copied[..] == tags[..];
        newTags := copied;
      }
      var newEnv: Env? := null;
      if env != null {
        newEnv := new Env(env.vars);
      }
      r := new Create(newEnv, newTags, timeouts);
    }
  }

  /** Options whose storage overlaps neither another's nor that of `owner`. */
  ghost predicate Apart(opts: seq<Create>, owner: Create)
    reads owner, opts
  {
    && (forall i :: 0 <= i < |opts| ==> opts[i] != owner)
    && (forall i, j :: 0 <= i < j < |opts| ==> opts[i] != opts[j])
    && (forall i :: 0 <= i < |opts| && opts[i].env != null ==> opts[i].env != owner.env)
    && (forall i :: 0 <= i < |opts| && opts[i].tags != null ==> opts[i].tags != owner.tags)
    && (forall i, j :: 0 <= i < j < |opts| && opts[i].env != null ==> opts[i].env != opts[j].env)
    && (forall i, j :: 0 <= i < j < |opts| && opts[i].tags != null ==> opts[i].tags != opts[j].tags)
  }

  /** `getCreateOpts` (`command.go`): one copy of the command's options for each
      well-formed subcommand. */
  method CopyForAll(owner: Create, n: nat) returns (opts: seq<Create>)
    ensures |opts| == n && Apart(opts, owner)
    ensures forall o :: o in opts ==> fresh(o) && o.closers == [] && o.timeouts == owner.timeouts
    ensures forall o :: o in opts ==> (o.env != null ==> fresh(o.env)) && (o.env != null <==> owner.env != null)
    ensures forall o :: o in opts && owner.env != null ==> o.env.vars == owner.env.vars
    ensures forall o :: o in opts && owner.tags != null ==> o.tags != null && o.tags[..] == owner.tags[..]
  {
    opts := [];
    for i := 0 to n
      invariant |opts| == i && Apart(opts, owner)
      invariant forall o :: o in opts ==> fresh(o) && o.closers == [] && o.timeouts == owner.timeouts
      invariant forall o :: o in opts ==> (o.env != null ==> fresh(o.env)) && (o.env != null <==> owner.env != null)
      invariant forall o :: o in opts ==> (o.tags != null ==> fresh(o.tags))
      invariant forall o :: o in opts && owner.env != null ==> o.env.vars == owner.env.vars
      invariant forall o :: o in opts && owner.tags != null ==> o.tags != null && o.tags[..] == owner.tags[..]
    {
      var o := owner.Copy();
      opts := opts + [o];
    }
  }

  /** Each constructor writes its process's id into the environment it was given.
      With separate storage, every process still records its own id once all have
      been spawned, and the command's environment is untouched. */
  method RecordIds(opts: seq<Create>, owner: Create, ids: seq<string>)
    requires |ids| == |opts| && Apart(opts, owner)
    modifies opts, set o | o in opts && o.env != null :: o.env
    ensures Apart(opts, owner)
    ensures forall i :: 0 <= i < |opts| ==>
      && opts[i].env != null
      && opts[i].env.vars == (if old(opts[i].env) == null then map[] else old(opts[i].env.vars))[ENVIRON_ID := ids[i]]
    ensures owner.env == old(owner.env) && (owner.env != null ==> owner.env.vars == old(owner.env.vars))
  {
    for k := 0 to |opts|
      invariant Apart(opts, owner)
      invariant forall i :: 0 <= i < k ==>
        && opts[i].env != null
        && opts[i].env.vars == (if old(opts[i].env) == null then map[] else old(opts[i].env.vars))[ENVIRON_ID := ids[i]]
      invariant forall i :: k <= i < |opts| ==>
        opts[i].env == old(opts[i].env) && (opts[i].env != null ==> opts[i].env.vars == old(opts[i].env.vars))
      invariant forall i :: 0 <= i < k ==> opts[i].env == old(opts[i].env) || fresh(opts[i].env)
      invariant owner.env == old(owner.env) && (owner.env != null ==> owner.env.vars == old(owner.env.vars))
    {
      opts[k].AddEnvVar(ENVIRON_ID, ids[k]);
    }
  }

  /** Spawning a process for each subcommand, end to end. */
  method SpawnAll(owner: Create, ids: seq<string>) returns (opts: seq<Create>)
    ensures |opts| == |ids| && Apart(opts, owner)
    ensures forall i :: 0 <= i < |ids| ==>
      opts[i].env != null && opts[i].env.vars == (if owner.env == null then map[] else owner.env.vars)[ENVIRON_ID := ids[i]]
    ensures owner.env != null ==> owner.env.vars == old(owner.env.vars)
  {
    opts := CopyForAll(owner, |ids|);
    forall i | 0 <= i < |opts| ensures opts[i] in opts {
    }
    RecordIds(opts, owner, ids);
  }

  /** `Respawn`: the new process gets its own id in its own environment, and the
      original's recorded environment stays as it was. */
  method Respawn(recorded: Create, id: string) returns (r: Create)
    ensures fresh(r) && r.env != null && fresh(r.env)
    ensures r.env.vars == (if recorded.env == null then map[] else recorded.env.vars)[ENVIRON_ID := id]
    ensures recorded.env != null ==> recorded.env.vars == old(recorded.env.vars)
  {
    r := recorded.Copy();
    r.AddEnvVar(ENVIRON_ID, id);
  }
}
