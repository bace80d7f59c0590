/** Conversion of creation-option trees to and from their wire form
    (`remote/internal/jasper.ext.go`). */
module Wire {
  import opened Wrappers
  import opened CreateOptions

  /** Logger configurations are carried as they are. */
  datatype Logger = Logger(id: nat)

  datatype WireOutput = WireOutput(
    suppressOutput: bool,
    suppressError: bool,
    redirectOutputToError: bool,
    redirectErrorToOutput: bool,
    loggers: seq<Logger>)

  /** `writers` stands for the fields that never travel. */
  datatype LocalOutput = LocalOutput(
    suppressOutput: bool,
    suppressError: bool,
    sendOutputToError: bool,
    sendErrorToOutput: bool,
    loggers: seq<Logger>,
    writers: Option<nat>)

  const DEFAULT_OUTPUT := LocalOutput(false, false, false, false, [], None)

  datatype Stdin = NoStdin | FromBytes(bytes: seq<nat>) | OtherStdin(id: nat)

  /** `localOnly` stands for the fields that the wire form lacks: `Synchronized`,
      `Implementation`, `Remote`, `Docker` and the closers. */
  datatype Local = Local(
    args: seq<string>,
    env: map<string, string>,
    dir: string,
    timeout: int,
    secs: int,
    overrideEnv: bool,
    tags: seq<string>,
    stdinBytes: seq<nat>,
    stdin: Stdin,
    localOnly: Option<nat>,
    output: LocalOutput,
    onSuccess: seq<Local>,
    onFailure: seq<Local>,
    onTimeout: seq<Local>)

  datatype Remote = Remote(
    args: seq<string>,
    env: map<string, string>,
    dir: string,
    timeoutSeconds: int,
    overrideEnv: bool,
    tags: seq<string>,
    stdinBytes: seq<nat>,
    output: Option<WireOutput>,
    onSuccess: seq<Remote>,
    onFailure: seq<Remote>,
    onTimeout: seq<Remote>)

  // ----- output options

  function ExportOutput(o: WireOutput): LocalOutput {
    LocalOutput(o.suppressOutput, o.suppressError, o.redirectOutputToError, o.redirectErrorToOutput, o.loggers, None)
  }

  function ConvertOutput(o: LocalOutput): WireOutput {
    WireOutput(o.suppressOutput, o.suppressError, o.sendOutputToError, o.sendErrorToOutput, o.loggers)
  }

  // ----- creation options

  function StdinOf(bytes: seq<nat>): Stdin {
    if bytes == [] then NoStdin else FromBytes(bytes)
  }

  function Export(w: Remote): Local
    decreases w
  {
    Local(w.args, w.env, w.dir, Wrap64(w.timeoutSeconds * SECOND), w.timeoutSeconds, w.overrideEnv, w.tags,
          w.stdinBytes, StdinOf(w.stdinBytes), None,
          if w.output.Some? then ExportOutput(w.output.value) else DEFAULT_OUTPUT,
          ExportAll(w.onSuccess), ExportAll(w.onFailure), ExportAll(w.onTimeout))
  }

  function ExportAll(ws: seq<Remote>): seq<Local>
    decreases ws
  {
    if ws == [] then [] else ExportAll(ws[..|ws| - 1]) + [Export(ws[|ws| - 1])]
  }

  /** The seconds that travel; `seconds` is `int(d.Seconds())`, whatever its
      rounding. */
  function SecondsOf(l: Local, seconds: int -> int): int {
    if l.secs == 0 && l.timeout != 0 then seconds(l.timeout) else l.secs
  }

  function Convert(l: Local, seconds: int -> int): Remote
    decreases l
  {
    Remote(l.args, l.env, l.dir, SecondsOf(l, seconds), l.overrideEnv, l.tags, l.stdinBytes,
           Some(ConvertOutput(l.output)),
           ConvertAll(l.onSuccess, seconds), ConvertAll(l.onFailure, seconds), ConvertAll(l.onTimeout, seconds))
  }

  function ConvertAll(ls: seq<Local>, seconds: int -> int): seq<Remote>
    decreases ls
  {
    if ls == [] then [] else ConvertAll(ls[..|ls| - 1], seconds) + [Convert(ls[|ls| - 1], seconds)]
  }

  /** Converting writes the seconds back into the options it converts. */
  function Touched(l: Local, seconds: int -> int): Local
    decreases l
  {
    l.(secs := SecondsOf(l, seconds), onSuccess := TouchedAll(l.onSuccess, seconds),
       onFailure := TouchedAll(l.onFailure, seconds), onTimeout := TouchedAll(l.onTimeout, seconds))
  }

  function TouchedAll(ls: seq<Local>, seconds: int -> int): seq<Local>
    decreases ls
  {
    if ls == [] then [] else TouchedAll(ls[..|ls| - 1], seconds) + [Touched(ls[|ls| - 1], seconds)]
  }

  // ----- field by field

  lemma {:induction false} ExportAllAt(ws: seq<Remote>, i: nat)
    requires i < |ws|
    ensures |ExportAll(ws)| == |ws| && ExportAll(ws)[i] == Export(ws[i])
  {
    hide Export;
    var n := |ws| - 1;
    if i < n {
      ExportAllAt(ws[..n], i);
    } else if n > 0 {
      ExportAllAt(ws[..n], 0);
    }
  }

  lemma {:induction false} ConvertAllAt(ls: seq<Local>, seconds: int -> int, i: nat)
    requires i < |ls|
    ensures |ConvertAll(ls, seconds)| == |ls| && ConvertAll(ls, seconds)[i] == Convert(ls[i], seconds)
  {
    hide Convert;
    var n := |ls| - 1;
    if i < n {
      ConvertAllAt(ls[..n], seconds, i);
    } else if n > 0 {
      ConvertAllAt(ls[..n], seconds, 0);
    }
  }

  ghost predicate ExportedEach(ls: seq<Local>, ws: seq<Remote>) {
    |ls| == |ws| && forall i :: 0 <= i < |ws| ==> ls[i] == Export(ws[i])
  }

  lemma ExportsEach(ws: seq<Remote>)
    ensures ExportedEach(ExportAll(ws), ws)
  {
    forall i | 0 <= i < |ws| ensures |ExportAll(ws)| == |ws| && ExportAll(ws)[i] == Export(ws[i]) {
      ExportAllAt(ws, i);
    }
  }

  ghost predicate ConvertedEach(ws: seq<Remote>, ls: seq<Local>, seconds: int -> int) {
    |ws| == |ls| && forall i :: 0 <= i < |ls| ==> ws[i] == Convert(ls[i], seconds)
  }

  lemma ConvertsEach(ls: seq<Local>, seconds: int -> int)
    ensures ConvertedEach(ConvertAll(ls, seconds), ls, seconds)
  {
    forall i | 0 <= i < |ls| ensures |ConvertAll(ls, seconds)| == |ls| && ConvertAll(ls, seconds)[i] == Convert(ls[i], seconds) {
      ConvertAllAt(ls, seconds, i);
    }
  }

  ghost predicate TouchedEach(ts: seq<Local>, ls: seq<Local>, seconds: int -> int) {
    |ts| == |ls| && forall i :: 0 <= i < |ls| ==> ts[i] == Touched(ls[i], seconds)
  }

  lemma {:induction false} TouchesEach(ls: seq<Local>, seconds: int -> int)
    ensures TouchedEach(TouchedAll(ls, seconds), ls, seconds)
  {
    hide Touched;
    if ls != [] {
      TouchesEach(ls[..|ls| - 1], seconds);
    }
  }

  /** Converting changes the options it converts in their seconds alone: missing ones
      are filled in from the timeout, also in the trees below. */
  lemma TouchedFields(l: Local, seconds: int -> int)
    ensures var t := Touched(l, seconds);
            && t == l.(secs := t.secs, onSuccess := t.onSuccess, onFailure := t.onFailure, onTimeout := t.onTimeout)
            && t.secs == (if l.secs == 0 && l.timeout != 0 then seconds(l.timeout) else l.secs)
            && TouchedEach(t.onSuccess, l.onSuccess, seconds) && TouchedEach(t.onFailure, l.onFailure, seconds)
            && TouchedEach(t.onTimeout, l.onTimeout, seconds)
  {
    TouchesEach(l.onSuccess, seconds);
    TouchesEach(l.onFailure, seconds);
    TouchesEach(l.onTimeout, seconds);
    hide TouchedEach;
  }

  /** Where each field of exported options comes from: the field of the same name.
      Bytes for standard input become a reader of these bytes; without output
      options nothing is suppressed, redirected or logged. */
  lemma ExportFields(w: Remote)
    ensures var l := Export(w);
            && l.args == w.args && l.env == w.env && l.dir == w.dir && l.overrideEnv == w.overrideEnv && l.tags == w.tags
            && l.secs == w.timeoutSeconds && l.timeout == Wrap64(w.timeoutSeconds * 1_000_000_000)
            && l.stdinBytes == w.stdinBytes && l.localOnly.None? && l.output.writers.None?
            && (w.stdinBytes == [] ==> l.stdin.NoStdin?) && (w.stdinBytes != [] ==> l.stdin == FromBytes(w.stdinBytes))
            && (w.output.None? ==>
                  && !l.output.suppressOutput && !l.output.suppressError
                  && !l.output.sendOutputToError && !l.output.sendErrorToOutput && l.output.loggers == [])
            && (w.output.Some? ==>
                  && l.output.suppressOutput == w.output.value.suppressOutput
                  && l.output.suppressError == w.output.value.suppressError
                  && l.output.sendOutputToError == w.output.value.redirectOutputToError
                  && l.output.sendErrorToOutput == w.output.value.redirectErrorToOutput
                  && l.output.loggers == w.output.value.loggers)
            && ExportedEach(l.onSuccess, w.onSuccess) && ExportedEach(l.onFailure, w.onFailure)
            && ExportedEach(l.onTimeout, w.onTimeout)
  {
    ExportsEach(w.onSuccess);
    ExportsEach(w.onFailure);
    ExportsEach(w.onTimeout);
    hide ExportedEach, Wrap64;
  }

  /** And of converted options. */
  lemma ConvertFields(l: Local, seconds: int -> int)
    ensures var w := Convert(l, seconds);
            && w.args == l.args && w.env == l.env && w.dir == l.dir && w.overrideEnv == l.overrideEnv && w.tags == l.tags
            && w.stdinBytes == l.stdinBytes
            && w.timeoutSeconds == (if l.secs == 0 && l.timeout != 0 then seconds(l.timeout) else l.secs)
            && w.output.Some?
            && w.output.value.suppressOutput == l.output.suppressOutput
            && w.output.value.suppressError == l.output.suppressError
            && w.output.value.redirectOutputToError == l.output.sendOutputToError
            && w.output.value.redirectErrorToOutput == l.output.sendErrorToOutput
            && w.output.value.loggers == l.output.loggers
            && ConvertedEach(w.onSuccess, l.onSuccess, seconds) && ConvertedEach(w.onFailure, l.onFailure, seconds)
            && ConvertedEach(w.onTimeout, l.onTimeout, seconds)
  {
    ConvertsEach(l.onSuccess, seconds);
    ConvertsEach(l.onFailure, seconds);
    ConvertsEach(l.onTimeout, seconds);
    hide ConvertedEach;
  }

  // ----- the loops of the source

  method ExportCreateOptions(w: Remote) returns (l: Local)
    ensures l == Export(w)
    decreases w
  {
    l := Local(w.args, w.env, w.dir, Wrap64(w.timeoutSeconds * SECOND), w.timeoutSeconds, w.overrideEnv, w.tags,
               w.stdinBytes, NoStdin, None, DEFAULT_OUTPUT, [], [], []);
    if |w.stdinBytes| != 0 {
      l := l.(stdin := FromBytes(w.stdinBytes));
    }
    if w.output.Some? {
      l := l.(output := ExportOutput(w.output.value));
    }
    var onSuccess := ExportList(w.onSuccess);
    var onFailure := ExportList(w.onFailure);
    var onTimeout := ExportList(w.onTimeout);
    l := l.(onSuccess := onSuccess, onFailure := onFailure, onTimeout := onTimeout);
  }

  method ExportList(ws: seq<Remote>) returns (ls: seq<Local>)
    ensures ls == ExportAll(ws)
    decreases ws
  {
    ls := [];
    for i := 0 to |ws|
      invariant ls == ExportAll(ws[..i])
    {
      var l := ExportCreateOptions(ws[i]);
      ls := ls + [l];
      assert ws[..i + 1][..i] == ws[..i];
    }
    assert ws[..|ws|] == ws;
  }

  method ConvertCreateOptions(l: Local, seconds: int -> int) returns (w: Remote, touched: Local)
    ensures w == Convert(l, seconds) && touched == Touched(l, seconds)
    decreases l
  {
    touched := l;
    if l.secs == 0 && l.timeout != 0 {
      touched := touched.(secs := seconds(l.timeout));
    }
    w := Remote(l.args, l.env, l.dir, touched.secs, l.overrideEnv, l.tags, l.stdinBytes,
                Some(ConvertOutput(l.output)), [], [], []);
    var onSuccess, s := ConvertList(l.onSuccess, seconds);
    var onFailure, f := ConvertList(l.onFailure, seconds);
    var onTimeout, t := ConvertList(l.onTimeout, seconds);
    w := w.(onSuccess := onSuccess, onFailure := onFailure, onTimeout := onTimeout);
    touched := touched.(onSuccess := s, onFailure := f, onTimeout := t);
  }

  method ConvertList(ls: seq<Local>, seconds: int -> int) returns (ws: seq<Remote>, touched: seq<Local>)
    ensures ws == ConvertAll(ls, seconds) && touched == TouchedAll(ls, seconds)
    decreases ls
  {
    ws, touched := [], [];
    for i := 0 to |ls|
      invariant ws == ConvertAll(ls[..i], seconds) && touched == TouchedAll(ls[..i], seconds)
    {
      var w, t := ConvertCreateOptions(ls[i], seconds);
      ws, touched := ws + [w], touched + [t];
      assert ls[..i + 1][..i] == ls[..i];
    }
    assert ls[..|ls|] == ls;
  }

  // ----- round trips

  predicate OutputEverywhere(w: Remote)
    decreases w
  {
    w.output.Some? && OutputInAll(w.onSuccess) && OutputInAll(w.onFailure) && OutputInAll(w.onTimeout)
  }

  predicate OutputInAll(ws: seq<Remote>)
    decreases ws
  {
    ws == [] || (OutputInAll(ws[..|ws| - 1]) && OutputEverywhere(ws[|ws| - 1]))
  }

  /** Converting an exported wire tree gives it back, exactly when output options
      are present at every node. */
  lemma {:induction false} WireRoundTrip(w: Remote, seconds: int -> int)
    ensures Convert(Export(w), seconds) == w <==> OutputEverywhere(w)
    decreases w
  {
    WireRoundTrips(w.onSuccess, seconds);
    WireRoundTrips(w.onFailure, seconds);
    WireRoundTrips(w.onTimeout, seconds);
    assert SecondsOf(Export(w), seconds) == w.timeoutSeconds;
    var back := Convert(Export(w), seconds);
    assert back.onSuccess == ConvertAll(ExportAll(w.onSuccess), seconds);
    assert back.onFailure == ConvertAll(ExportAll(w.onFailure), seconds);
    assert back.onTimeout == ConvertAll(ExportAll(w.onTimeout), seconds);
  }

  lemma {:induction false} WireRoundTrips(ws: seq<Remote>, seconds: int -> int)
    ensures ConvertAll(ExportAll(ws), seconds) == ws <==> OutputInAll(ws)
    decreases ws
  {
    if ws != [] {
      var n := |ws| - 1;
      WireRoundTrips(ws[..n], seconds);
      WireRoundTrip(ws[n], seconds);
      LastRoundTrip(ws, seconds);
      SameLength(ws[..n], seconds);
      assert OutputInAll(ws) <==> OutputInAll(ws[..n]) && OutputEverywhere(ws[n]);
      hide Convert, ConvertAll, Export, ExportAll, OutputInAll, OutputEverywhere;
      SplitEqual(ConvertAll(ExportAll(ws[..n]), seconds), Convert(Export(ws[n]), seconds), ws);
    }
  }

  lemma LastRoundTrip(ws: seq<Remote>, seconds: int -> int)
    requires ws != []
    ensures var n := |ws| - 1;
            ConvertAll(ExportAll(ws), seconds) == ConvertAll(ExportAll(ws[..n]), seconds) + [Convert(Export(ws[n]), seconds)]
  {
    hide Convert, Export;
    assert ExportAll(ws)[..|ExportAll(ws)| - 1] == ExportAll(ws[..|ws| - 1]);
  }

  lemma {:induction false} SameLength(ws: seq<Remote>, seconds: int -> int)
    ensures |ExportAll(ws)| == |ws| && |ConvertAll(ExportAll(ws), seconds)| == |ws|
    decreases ws
  {
    if ws != [] {
      var n := |ws| - 1;
      SameLength(ws[..n], seconds);
      assert ExportAll(ws)[..|ExportAll(ws)| - 1] == ExportAll(ws[..n]);
    }
  }

  lemma {:induction false} ConvertedHasOutput(l: Local, seconds: int -> int)
    ensures OutputEverywhere(Convert(l, seconds))
    decreases l
  {
    AllConvertedHaveOutput(l.onSuccess, seconds);
    AllConvertedHaveOutput(l.onFailure, seconds);
    AllConvertedHaveOutput(l.onTimeout, seconds);
  }

  lemma {:induction false} AllConvertedHaveOutput(ls: seq<Local>, seconds: int -> int)
    ensures OutputInAll(ConvertAll(ls, seconds))
    decreases ls
  {
    if ls != [] {
      var n := |ls| - 1;
      AllConvertedHaveOutput(ls[..n], seconds);
      ConvertedHasOutput(ls[n], seconds);
      var ws := ConvertAll(ls, seconds);
      assert ws[..|ws| - 1] == ConvertAll(ls[..n], seconds);
    }
  }

  /** For any local tree one trip is a projection: what the wire carries of it
      stays the same on every further trip. */
  lemma TripIsProjection(l: Local, seconds: int -> int)
    ensures Convert(Export(Convert(l, seconds)), seconds) == Convert(l, seconds)
    ensures Export(Convert(Export(Convert(l, seconds)), seconds)) == Export(Convert(l, seconds))
  {
    ConvertedHasOutput(l, seconds);
    WireRoundTrip(Convert(l, seconds), seconds);
  }

  /** Local options that a trip leaves as they are: none of the fields that never
      travel is set, and the timeout is its seconds in nanoseconds. */
  predicate WireForm(l: Local)
    decreases l
  {
    && l.localOnly.None? && l.output.writers.None?
    && l.stdin == (if l.stdinBytes == [] then NoStdin else FromBytes(l.stdinBytes))
    && l.timeout == Wrap64(l.secs * SECOND)
    && WireForms(l.onSuccess) && WireForms(l.onFailure) && WireForms(l.onTimeout)
  }

  predicate WireForms(ls: seq<Local>)
    decreases ls
  {
    ls == [] || (WireForms(ls[..|ls| - 1]) && WireForm(ls[|ls| - 1]))
  }

  /** A trip loses nothing exactly when the options are in wire form. */
  lemma {:induction false} LosslessExactlyWireForm(l: Local, seconds: int -> int)
    ensures Export(Convert(l, seconds)) == l <==> WireForm(l)
    decreases l
  {
    AllLossless(l.onSuccess, seconds);
    AllLossless(l.onFailure, seconds);
    AllLossless(l.onTimeout, seconds);
    var back := Export(Convert(l, seconds));
    assert back.onSuccess == ExportAll(ConvertAll(l.onSuccess, seconds));
    assert back.onFailure == ExportAll(ConvertAll(l.onFailure, seconds));
    assert back.onTimeout == ExportAll(ConvertAll(l.onTimeout, seconds));
    assert back.secs == SecondsOf(l, seconds) && back.timeout == Wrap64(SecondsOf(l, seconds) * SECOND);
    assert back.output == ExportOutput(ConvertOutput(l.output));
  }

  lemma SplitEqual<T>(a: seq<T>, x: T, s: seq<T>)
    requires |s| == |a| + 1
    ensures a + [x] == s <==> a == s[..|a|] && x == s[|a|]
  {
    assert s == s[..|a|] + [s[|a|]];
  }

  lemma {:induction false} AllLossless(ls: seq<Local>, seconds: int -> int)
    ensures |ExportAll(ConvertAll(ls, seconds))| == |ls|
    ensures ExportAll(ConvertAll(ls, seconds)) == ls <==> WireForms(ls)
    decreases ls
  {
    if ls != [] {
      var n := |ls| - 1;
      AllLossless(ls[..n], seconds);
      LosslessExactlyWireForm(ls[n], seconds);
      LastTrip(ls, seconds);
      hide Convert, ConvertAll, Export, ExportAll, WireForm;
      SplitEqual(ExportAll(ConvertAll(ls[..n], seconds)), Export(Convert(ls[n], seconds)), ls);
    }
  }

  lemma LastTrip(ls: seq<Local>, seconds: int -> int)
    requires ls != []
    ensures var n := |ls| - 1;
            ExportAll(ConvertAll(ls, seconds)) == ExportAll(ConvertAll(ls[..n], seconds)) + [Export(Convert(ls[n], seconds))]
  {
    hide Convert, Export;
    assert ConvertAll(ls, seconds)[..|ConvertAll(ls, seconds)| - 1] == ConvertAll(ls[..|ls| - 1], seconds);
  }

  /** The seconds that converting writes back do not change what is converted. */
  lemma {:induction false} TouchedConvertsAlike(l: Local, seconds: int -> int)
    ensures Convert(Touched(l, seconds), seconds) == Convert(l, seconds)
    decreases l
  {
    AllTouchedConvertAlike(l.onSuccess, seconds);
    AllTouchedConvertAlike(l.onFailure, seconds);
    AllTouchedConvertAlike(l.onTimeout, seconds);
  }

  lemma {:induction false} AllTouchedConvertAlike(ls: seq<Local>, seconds: int -> int)
    ensures ConvertAll(TouchedAll(ls, seconds), seconds) == ConvertAll(ls, seconds)
    decreases ls
  {
    if ls != [] {
      var n := |ls| - 1;
      AllTouchedConvertAlike(ls[..n], seconds);
      TouchedConvertsAlike(ls[n], seconds);
      var ts := TouchedAll(ls, seconds);
      assert ts[..|ts| - 1] == TouchedAll(ls[..n], seconds);
    }
  }

  /** What a trip makes of a timeout that is given in nanoseconds: it drops the part
      below a second, exactly if there is none or the conversion to seconds did not
      round up. */
  lemma SubSecondsTruncated(l: Local, up: bool)
    requires l.secs == 0 && IsInt64(l.timeout) && l.timeout > 0
    ensures var back := Export(Convert(l, d => TruncSeconds(d, up)));
            && back.secs == TruncSeconds(l.timeout, up)
            && (back.timeout == l.timeout - l.timeout % SECOND <==> !up || l.timeout % SECOND == 0)
  {
    var q := l.timeout / SECOND;
    assert l.timeout == q * SECOND + l.timeout % SECOND;
    assert Wrap64(q * SECOND) == q * SECOND;
    assert Wrap64((q + 1) * SECOND) != q * SECOND;
  }
}
