/** Output resolution and closing (`options/output.go`).

    `GetOutput` and `GetError` call each other when a stream is redirected, keep
    what they built, and share the loggers' senders; `Close` has to close each of
    those senders once.  A logger makes its sender when it is first resolved
    (`options/logger.go`), and making it can fail.
 */
module Output {
  import opened Wrappers

  /** A user's `io.Writer`: nil, `ioutil.Discard`, or another writer. */
  datatype Target = Nil | Discard | Writer(id: nat)

  predicate IsNull(t: Target) {
    !t.Writer?
  }

  /** A `send.WriterSender` with its identity and the loggers' senders that its
      wrapped sender passes messages to.  Closing it leaves those open; closing
      the wrapped sender closes each of them. */
  datatype WriterSender = WriterSender(id: nat, senders: seq<nat>)

  /** The writer handed to the executor. */
  datatype Stream = ToDiscard | ToUser(user: nat) | ToSender(ws: WriterSender) | ToBoth(user: nat, ws: WriterSender)

  datatype Sink = UserSink(user: nat) | SenderSink(sender: nat)

  function SenderSinks(senders: seq<nat>): seq<Sink> {
    seq(|senders|, i requires 0 <= i < |senders| => SenderSink(senders[i]))
  }

  /** Where a write to a stream ends up. */
  function Sinks(w: Stream): seq<Sink> {
    match w
    case ToDiscard => []
    case ToUser(u) => [UserSink(u)]
    case ToSender(ws) => SenderSinks(ws.senders)
    case ToBoth(u, ws) => [UserSink(u)] + SenderSinks(ws.senders)
  }

  lemma DiscardReachesNothing()
    ensures Sinks(ToDiscard) == []
  {
  }

  /** The writer for a stream of its own: the user's, the loggers', or both. */
  function OwnStream(target: Target, ws: Option<WriterSender>): (w: Stream)
    requires target.Writer? || ws.Some?
    ensures Sinks(w) == (if target.Writer? then [UserSink(target.id)] else [])
                        + (if ws.Some? then SenderSinks(ws.value.senders) else [])
  {
    if !IsNull(target) && ws.Some? then ToBoth(target.id, ws.value)
    else if !IsNull(target) then ToUser(target.id)
    else ToSender(ws.value)
  }

  // ----- loggers

  /** Where loggers' senders come from: the calls of the producers' `Configure`, in
      order, each of which fails or makes a sender of its own.  A sender is
      identified by the call that made it. */
  class Factory {
    var calls: nat
    var closed: seq<nat>       // history: `Close` calls on senders
    const fails: nat -> bool

    constructor (fails: nat -> bool)
      ensures this.fails == fails && calls == 0 && closed == []
    {
      this.fails, calls, closed := fails, 0, [];
    }

    method Configure() returns (sender: Option<nat>)
      modifies this`calls
      ensures calls == old(calls) + 1
      ensures sender == if fails(old(calls)) then None else Some(old(calls))
    {
      sender := if fails(calls) then None else Some(calls);
      calls := calls + 1;
    }
  }

  /** The next `n` calls succeed. */
  ghost predicate Succeed(fails: nat -> bool, first: nat, n: nat) {
    forall c :: first <= c < first + n ==> !fails(c)
  }

  /** The calls from `first` on all succeeded but the last. */
  ghost predicate StoppedAtFailure(fails: nat -> bool, first: nat, calls: nat) {
    first < calls && fails(calls - 1) && forall c :: first <= c < calls - 1 ==> !fails(c)
  }

  /** So some call made a sender exactly if the first one did. */
  lemma MadeBeforeFailure(fails: nat -> bool, first: nat, calls: nat)
    requires StoppedAtFailure(fails, first, calls)
    ensures (exists c :: first <= c < calls && !fails(c)) <==> !fails(first)
  {
  }

  /** `LoggerConfig`. */
  class Logger {
    const factory: Factory
    var sender: Option<nat>

    constructor (factory: Factory)
      ensures this.factory == factory && sender.None?
    {
      this.factory, sender := factory, None;
    }

    /** Once a sender was made, it is the answer to every later call, and no other
        is made; until then, each call tries. */
    method Resolve() returns (answer: Option<nat>)
      modifies this`sender, factory`calls
      ensures answer == sender
      ensures old(sender).Some? ==> sender == old(sender) && factory.calls == old(factory.calls)
      ensures old(sender).None? ==>
                && factory.calls == old(factory.calls) + 1
                && sender == if factory.fails(old(factory.calls)) then None else Some(old(factory.calls))
    {
      if sender.None? {
        var made := factory.Configure();
        if made.None? {
          return None;
        }
        sender := made;
      }
      answer := sender;
    }
  }

  predicate AllResolved(loggers: seq<Logger>)
    reads loggers
  {
    forall i :: 0 <= i < |loggers| ==> loggers[i].sender.Some?
  }

  /** The loggers' senders in order, once all are resolved. */
  function Senders(loggers: seq<Logger>): (r: seq<nat>)
    reads loggers
  {
    if AllResolved(loggers)
    then seq(|loggers|, i requires 0 <= i < |loggers| && AllResolved(loggers) reads loggers => loggers[i].sender.value)
    else []
  }

  ghost function Missing(loggers: seq<Logger>): set<Logger>
    reads loggers
  {
    set l | l in loggers && l.sender.None?
  }

  /** The loggers have their senders from one factory, each its own. */
  ghost predicate OwnSenders(loggers: seq<Logger>, factory: Factory)
    reads loggers, factory`calls
  {
    && (forall l :: l in loggers ==> l.factory == factory)
    && (forall l :: l in loggers && l.sender.Some? ==> l.sender.value < factory.calls)
    && (forall l, m :: l in loggers && m in loggers && l.sender.Some? && l.sender == m.sender ==> l == m)
  }

  ghost function Times<T>(x: T, s: seq<T>): nat {
    multiset(s)[x]
  }

  predicate Distinct<T(==)>(s: seq<T>) {
    forall i, j :: 0 <= i < j < |s| ==> s[i] != s[j]
  }

  /** No sender is lost, no sender is made when none is missing, and every sender
      made is kept by a logger. */
  twostate predicate SendersKept(loggers: seq<Logger>, factory: Factory)
    reads loggers, factory`calls
  {
    && (forall l :: l in loggers && old(l.sender).Some? ==> l.sender == old(l.sender))
    && (old(AllResolved(loggers)) ==>
          AllResolved(loggers) && Senders(loggers) == old(Senders(loggers)) && factory.calls == old(factory.calls))
    && (forall c :: old(factory.calls) <= c < factory.calls && !factory.fails(c) ==>
          exists l :: l in loggers && l.sender == Some(c))
  }

  lemma NoneMissing(loggers: seq<Logger>)
    ensures |Missing(loggers)| == 0 <==> AllResolved(loggers)
  {
    if |Missing(loggers)| == 0 {
      forall i | 0 <= i < |loggers| ensures loggers[i].sender.Some? {
        assert loggers[i] !in Missing(loggers);
      }
    }
    if AllResolved(loggers) {
      assert Missing(loggers) == {};
    }
  }

  lemma NothingMissing(loggers: seq<Logger>, factory: Factory)
    requires AllResolved(loggers)
    ensures Succeed(factory.fails, factory.calls, |Missing(loggers)|)
  {
    NoneMissing(loggers);
  }

  /** `Resolve` of one of some loggers. */
  method ResolveOne(l: Logger, ghost loggers: seq<Logger>, factory: Factory) returns (answer: Option<nat>)
    requires OwnSenders(loggers, factory) && l in loggers
    modifies l`sender, factory`calls
    ensures OwnSenders(loggers, factory)
    ensures answer == l.sender
    ensures old(l.sender).Some? ==> l.sender == old(l.sender) && factory.calls == old(factory.calls)
    ensures old(l.sender).None? ==>
              && factory.calls == old(factory.calls) + 1
              && l.sender == if factory.fails(old(factory.calls)) then None else Some(old(factory.calls))
    ensures |Missing(loggers)| == |old(Missing(loggers))| - if l.sender != old(l.sender) then 1 else 0
  {
    ghost var before := Missing(loggers);
    answer := l.Resolve();
    assert OwnSenders(loggers, factory);
    hide OwnSenders;
    assert Missing(loggers) == if answer.Some? then before - {l} else before;
  }

  /** Resolves loggers in order, stopping at the first that fails: all are resolved
      exactly if as many calls succeed as there are loggers without a sender. */
  method ResolveLoggers(loggers: seq<Logger>, factory: Factory) returns (senders: seq<nat>, ok: bool)
    requires OwnSenders(loggers, factory)
    modifies (set l | l in loggers)`sender, factory`calls
    ensures OwnSenders(loggers, factory) && SendersKept(loggers, factory)
    ensures ok <==> Succeed(factory.fails, old(factory.calls), |old(Missing(loggers))|)
    ensures ok ==> AllResolved(loggers) && senders == Senders(loggers)
    ensures ok ==> factory.calls == old(factory.calls) + |old(Missing(loggers))|
    ensures !ok ==> StoppedAtFailure(factory.fails, old(factory.calls), factory.calls)
  {
    hide OwnSenders, Missing;
    senders := [];
    ghost var missing, first := |Missing(loggers)|, factory.calls;
    NoneMissing(loggers);
    for i := 0 to |loggers|
      invariant OwnSenders(loggers, factory)
      invariant |senders| == i
      invariant forall j :: 0 <= j < i ==> loggers[j].sender == Some(senders[j])
      invariant forall l :: l in loggers && old(l.sender).Some? ==> l.sender == old(l.sender)
      invariant first <= factory.calls && factory.calls + |Missing(loggers)| == first + missing
      invariant forall c :: first <= c < factory.calls ==> !factory.fails(c)
      invariant forall c :: first <= c < factory.calls ==> exists l :: l in loggers && l.sender == Some(c)
    {
      ghost var made := factory.calls;
      var answer := ResolveOne(loggers[i], loggers, factory);
      if answer.None? {
        assert factory.fails(made);
        NoneMissing(loggers);
        return [], false;
      }
      senders := senders + [answer.value];
    }
    NoneMissing(loggers);
    ok := true;
  }

  /** The exported configuration. */
  datatype Flags = Flags(
    output: Target,
    error: Target,
    suppressOutput: bool,
    suppressError: bool,
    sendOutputToError: bool,
    sendErrorToOutput: bool)

  class Output {
    const flags: Flags
    const loggers: seq<Logger>
    const factory: Factory

    var outputSender: Option<WriterSender>
    var errorSender: Option<WriterSender>
    var outputMulti: Option<Stream>
    var errorMulti: Option<Stream>

    var made: nat              // writer senders made so far
    var writersClosed: seq<nat>  // history: `Close` calls on writer senders

    predicate OutputLogging() {
      |loggers| > 0 && !flags.suppressOutput
    }

    predicate ErrorLogging() {
      |loggers| > 0 && !flags.suppressError
    }

    /** `Validate` reports no error; `loggersValid` is what the loggers' own
        validation says. */
    predicate Acceptable(loggersValid: bool) {
      && !(flags.suppressOutput && (!IsNull(flags.output) || OutputLogging()))
      && !(flags.suppressError && (!IsNull(flags.error) || ErrorLogging()))
      && !(flags.suppressOutput && flags.sendOutputToError)
      && !(flags.suppressError && flags.sendErrorToOutput)
      && !(flags.sendOutputToError && IsNull(flags.error) && !ErrorLogging())
      && !(flags.sendErrorToOutput && IsNull(flags.output) && !OutputLogging())
      && !(flags.sendOutputToError && flags.sendErrorToOutput)
      && loggersValid
    }

    // ----- specification

    /** Where standard output goes when it is not redirected: the user's writer
        if there is one, and every logger unless output is suppressed. */
    function OwnOutputSinks(): seq<Sink>
      reads loggers
    {
      (if flags.output.Writer? then [UserSink(flags.output.id)] else [])
      + (if OutputLogging() then SenderSinks(Senders(loggers)) else [])
    }

    function OwnErrorSinks(): seq<Sink>
      reads loggers
    {
      (if flags.error.Writer? then [UserSink(flags.error.id)] else [])
      + (if ErrorLogging() then SenderSinks(Senders(loggers)) else [])
    }

    predicate OutputIsDiscard() {
      IsNull(flags.output) && !OutputLogging()
    }

    predicate ErrorIsDiscard() {
      IsNull(flags.error) && !ErrorLogging()
    }

    /** What is kept between calls fits the configuration. */
    ghost predicate Valid()
      reads this`outputSender, this`errorSender, this`outputMulti, this`errorMulti, loggers, factory`calls
    {
      && OwnSenders(loggers, factory)
      && (outputMulti.Some? ==>
            && !flags.sendOutputToError && !OutputIsDiscard()
            && (OutputLogging() ==> AllResolved(loggers))
            && Sinks(outputMulti.value) == OwnOutputSinks())
      && (errorMulti.Some? ==>
            && !flags.sendErrorToOutput && !ErrorIsDiscard()
            && (ErrorLogging() ==> AllResolved(loggers))
            && Sinks(errorMulti.value) == OwnErrorSinks())
      && (outputSender.Some? <==> outputMulti.Some? && OutputLogging())
      && (errorSender.Some? <==> errorMulti.Some? && ErrorLogging())
      && (outputSender.Some? ==> outputSender.value.senders == Senders(loggers))
      && (errorSender.Some? ==> errorSender.value.senders == Senders(loggers))
    }

    /** Standard output has been resolved. */
    predicate OutputSettled()
      reads this`outputMulti, this`errorMulti
    {
      if flags.sendOutputToError then ErrorIsDiscard() || errorMulti.Some?
      else OutputIsDiscard() || outputMulti.Some?
    }

    predicate ErrorSettled()
      reads this`outputMulti, this`errorMulti
    {
      if flags.sendErrorToOutput then OutputIsDiscard() || outputMulti.Some?
      else ErrorIsDiscard() || errorMulti.Some?
    }

    function OutputWriter(): Stream
      requires OutputSettled()
      reads this
    {
      if flags.sendOutputToError then (if errorMulti.Some? then errorMulti.value else ToDiscard)
      else if outputMulti.Some? then outputMulti.value else ToDiscard
    }

    function ErrorWriter(): Stream
      requires ErrorSettled()
      reads this
    {
      if flags.sendErrorToOutput then (if outputMulti.Some? then outputMulti.value else ToDiscard)
      else if errorMulti.Some? then errorMulti.value else ToDiscard
    }

    predicate OutputNeedsLoggers() {
      if flags.sendOutputToError then ErrorLogging() else OutputLogging()
    }

    predicate ErrorNeedsLoggers() {
      if flags.sendErrorToOutput then OutputLogging() else ErrorLogging()
    }

    /** The calls that are needed to make the missing senders will succeed. */
    ghost predicate Resolvable()
      reads this, loggers, factory`calls
    {
      Succeed(factory.fails, factory.calls, |Missing(loggers)|)
    }

    /** The sinks that the flags specify for each stream. */
    function SpecifiedOutputSinks(): seq<Sink>
      reads loggers
    {
      if flags.sendOutputToError then OwnErrorSinks() else OwnOutputSinks()
    }

    function SpecifiedErrorSinks(): seq<Sink>
      reads loggers
    {
      if flags.sendErrorToOutput then OwnOutputSinks() else OwnErrorSinks()
    }

    // ----- operations

    constructor (flags: Flags, loggers: seq<Logger>, factory: Factory)
      requires OwnSenders(loggers, factory)
      ensures Valid() && this.flags == flags && this.loggers == loggers && this.factory == factory
      ensures outputMulti.None? && errorMulti.None? && writersClosed == [] && made == 0
    {
      this.flags, this.loggers, this.factory := flags, loggers, factory;
      outputSender, errorSender, outputMulti, errorMulti := None, None, None, None;
      made, writersClosed := 0, [];
    }

    /** The copy shares the loggers. */
    method Copy() returns (copy: Output)
      requires Valid()
      ensures fresh(copy) && copy.Valid()
      ensures copy.flags == flags && copy.loggers == loggers && copy.factory == factory
      ensures copy.outputMulti.None? && copy.errorMulti.None?
    {
      copy := new Output(flags, loggers, factory);
    }

    /** A settled stream stays as it is, and no made sender is lost. */
    twostate predicate Kept()
      reads this, loggers, factory`calls
    {
      && (old(outputMulti).Some? ==> outputMulti == old(outputMulti) && outputSender == old(outputSender))
      && (old(errorMulti).Some? ==> errorMulti == old(errorMulti) && errorSender == old(errorSender))
      && SendersKept(loggers, factory)
    }

    method GetOutput() returns (w: Stream, ok: bool)
      requires Valid() && !(flags.sendOutputToError && flags.sendErrorToOutput)
      modifies this`outputSender, this`errorSender, this`outputMulti, this`errorMulti, this`made
      modifies (set l | l in loggers)`sender, factory`calls
      ensures Valid() && Kept()
      ensures ok <==> old(OutputSettled()) || !OutputNeedsLoggers() || old(Resolvable())
      ensures ok ==> OutputSettled() && w == OutputWriter()
      ensures ok && OutputNeedsLoggers() ==> AllResolved(loggers)
      ensures !OutputNeedsLoggers() ==> unchanged(loggers) && unchanged(factory)
      ensures ok ==> Sinks(w) == SpecifiedOutputSinks()
      ensures !ok ==> w == ToDiscard && outputMulti == old(outputMulti) && errorMulti == old(errorMulti)
      ensures !ok ==> StoppedAtFailure(factory.fails, old(factory.calls), factory.calls)
      ensures old(OutputSettled()) ==> w == old(OutputWriter()) && made == old(made)
      decreases Measure(flags, true)
    {
      DiscardReachesNothing();
      hide OwnSenders, Succeed, Missing, AllResolved, Senders, Sinks, SenderSinks, StoppedAtFailure;
      if flags.sendOutputToError {
        w, ok := GetError();
        return;
      }
      if OutputIsDiscard() {
        return ToDiscard, true;
      }
      if outputMulti.Some? {
        return outputMulti.value, true;
      }
      if OutputLogging() {
        var senders, resolved := ResolveLoggers(loggers, factory);
        if !resolved {
          return ToDiscard, false;
        }
        outputSender := Some(WriterSender(made, senders));
        made := made + 1;
      }
      outputMulti := Some(OwnStream(flags.output, outputSender));
      return outputMulti.value, true;
    }

    method GetError() returns (w: Stream, ok: bool)
      requires Valid() && !(flags.sendOutputToError && flags.sendErrorToOutput)
      modifies this`outputSender, this`errorSender, this`outputMulti, this`errorMulti, this`made
      modifies (set l | l in loggers)`sender, factory`calls
      ensures Valid() && Kept()
      ensures ok <==> old(ErrorSettled()) || !ErrorNeedsLoggers() || old(Resolvable())
      ensures ok ==> ErrorSettled() && w == ErrorWriter()
      ensures ok && ErrorNeedsLoggers() ==> AllResolved(loggers)
      ensures !ErrorNeedsLoggers() ==> unchanged(loggers) && unchanged(factory)
      ensures ok ==> Sinks(w) == SpecifiedErrorSinks()
      ensures !ok ==> w == ToDiscard && outputMulti == old(outputMulti) && errorMulti == old(errorMulti)
      ensures !ok ==> StoppedAtFailure(factory.fails, old(factory.calls), factory.calls)
      ensures old(ErrorSettled()) ==> w == old(ErrorWriter()) && made == old(made)
      decreases Measure(flags, false)
    {
      DiscardReachesNothing();
      hide OwnSenders, Succeed, Missing, AllResolved, Senders, Sinks, SenderSinks, StoppedAtFailure;
      if flags.sendErrorToOutput {
        w, ok := GetOutput();
        return;
      }
      if ErrorIsDiscard() {
        return ToDiscard, true;
      }
      if errorMulti.Some? {
        return errorMulti.value, true;
      }
      if ErrorLogging() {
        var senders, resolved := ResolveLoggers(loggers, factory);
        if !resolved {
          return ToDiscard, false;
        }
        errorSender := Some(WriterSender(made, senders));
        made := made + 1;
      }
      errorMulti := Some(OwnStream(flags.error, errorSender));
      return errorMulti.value, true;
    }

    /** Both streams, one after the other. */
    method BothStreams() returns (out: Stream, err: Stream, ok: bool)
      requires Valid() && Acceptable(true) && outputMulti.None? && errorMulti.None?
      modifies this`outputSender, this`errorSender, this`outputMulti, this`errorMulti, this`made
      modifies (set l | l in loggers)`sender, factory`calls
      ensures Valid() && Kept()
      ensures ok <==> !(OutputNeedsLoggers() || ErrorNeedsLoggers()) || old(Resolvable())
      ensures ok ==>
                && OutputSettled() && ErrorSettled() && out == OutputWriter() && err == ErrorWriter()
                && (OutputNeedsLoggers() || ErrorNeedsLoggers() ==> AllResolved(loggers))
                && Sinks(out) == SpecifiedOutputSinks() && Sinks(err) == SpecifiedErrorSinks()
      ensures !ok ==> StoppedAtFailure(factory.fails, old(factory.calls), factory.calls)
      ensures !ok ==> outputSender.None? && errorSender.None?
    {
      hide OwnSenders, Sinks, SenderSinks, AllResolved, Senders, StoppedAtFailure;
      ghost var resolvable := Resolvable();
      out, ok := GetOutput();
      err := ToDiscard;
      if !ok {
        return;
      }
      NoneMissing(loggers);
      if AllResolved(loggers) {
        NothingMissing(loggers, factory);
      }
      if !OutputNeedsLoggers() {
        assert Missing(loggers) == old(Missing(loggers));
      }
      hide Missing, Succeed;
      err, ok := GetError();
      assert ok && ErrorNeedsLoggers() ==> resolvable;
    }

    /** The part of `Create.Resolve` that gives the executor its streams.  If either
        stream cannot be had, the streams are closed, which closes no logger's
        sender: those made on the way, by all attempts but the last, stay open, each
        kept by its logger.  There is one exactly if the first attempt succeeds. */
    method ResolveStreams() returns (streams: Option<(Stream, Stream)>)
      requires Valid() && Acceptable(true) && outputMulti.None? && errorMulti.None?
      modifies this, (set l | l in loggers)`sender, factory
      ensures Valid() && Kept()
      ensures streams.Some? <==> |loggers| == 0 || (flags.suppressOutput && flags.suppressError) || old(Resolvable())
      ensures streams.Some? ==>
                && OutputSettled() && ErrorSettled() && streams.value == (OutputWriter(), ErrorWriter())
                && (OutputNeedsLoggers() || ErrorNeedsLoggers() ==> AllResolved(loggers))
                && Sinks(streams.value.0) == SpecifiedOutputSinks() && Sinks(streams.value.1) == SpecifiedErrorSinks()
      ensures streams.None? ==>
                && StoppedAtFailure(factory.fails, old(factory.calls), factory.calls)
                && ((exists c :: old(factory.calls) <= c < factory.calls && !factory.fails(c))
                    <==> !factory.fails(old(factory.calls)))
      ensures factory.closed == old(factory.closed)
    {
      NeedsLoggers();
      hide OwnSenders, Sinks, SenderSinks, AllResolved, Senders, AsOftenAsListed, StoppedAtFailure, Missing, Succeed;
      hide Acceptable, OutputSettled, ErrorSettled, OutputNeedsLoggers, ErrorNeedsLoggers, OutputLogging, ErrorLogging;
      ghost var first := factory.calls;
      var out, err, ok := BothStreams();
      if !ok {
        MadeBeforeFailure(factory.fails, first, factory.calls);
        Close();
        return None;
      }
      return Some((out, err));
    }

    /** A stream needs the loggers exactly if there are some and a stream is not
        suppressed. */
    lemma NeedsLoggers()
      requires Acceptable(true)
      ensures OutputNeedsLoggers() || ErrorNeedsLoggers() <==>
              |loggers| > 0 && !(flags.suppressOutput && flags.suppressError)
    {
    }

    /** `Validate` collects an error for each rule that is broken. */
    method Validate(loggersValid: bool) returns (ok: bool)
      ensures ok <==> Acceptable(loggersValid)
      ensures ok <==>
                && loggersValid
                && (flags.suppressOutput ==> !flags.output.Writer? && !flags.sendOutputToError)
                && (flags.suppressError ==> !flags.error.Writer? && !flags.sendErrorToOutput)
                && (flags.sendOutputToError ==>
                      !flags.sendErrorToOutput && (flags.error.Writer? || (loggers != [] && !flags.suppressError)))
                && (flags.sendErrorToOutput ==>
                      !flags.sendOutputToError && (flags.output.Writer? || (loggers != [] && !flags.suppressOutput)))
      ensures ok ==> !(flags.sendOutputToError && flags.sendErrorToOutput)
    {
      var errors := 0;
      if flags.suppressOutput && (!IsNull(flags.output) || OutputLogging()) {
        errors := errors + 1;
      }
      if flags.suppressError && (!IsNull(flags.error) || ErrorLogging()) {
        errors := errors + 1;
      }
      if flags.suppressOutput && flags.sendOutputToError {
        errors := errors + 1;
      }
      if flags.suppressError && flags.sendErrorToOutput {
        errors := errors + 1;
      }
      if flags.sendOutputToError && IsNull(flags.error) && !ErrorLogging() {
        errors := errors + 1;
      }
      if flags.sendErrorToOutput && IsNull(flags.output) && !OutputLogging() {
        errors := errors + 1;
      }
      if flags.sendOutputToError && flags.sendErrorToOutput {
        errors := errors + 1;
      }
      if !loggersValid {
        errors := errors + 1;
      }
      ok := errors == 0;
    }

    /** What each stream reaches, told of the flags and loggers alone: the writer of
        the stream that it is redirected to, or its own, and every logger unless that
        stream is suppressed. */
    lemma SinksOfStreams()
      requires OutputNeedsLoggers() || ErrorNeedsLoggers() ==> AllResolved(loggers)
      ensures var target := if flags.sendOutputToError then flags.error else flags.output;
              var suppressed := if flags.sendOutputToError then flags.suppressError else flags.suppressOutput;
              forall s :: s in SpecifiedOutputSinks() <==>
                || (target.Writer? && s == UserSink(target.id))
                || (!suppressed && exists l :: l in loggers && l.sender.Some? && s == SenderSink(l.sender.value))
      ensures var target := if flags.sendErrorToOutput then flags.output else flags.error;
              var suppressed := if flags.sendErrorToOutput then flags.suppressOutput else flags.suppressError;
              forall s :: s in SpecifiedErrorSinks() <==>
                || (target.Writer? && s == UserSink(target.id))
                || (!suppressed && exists l :: l in loggers && l.sender.Some? && s == SenderSink(l.sender.value))
    {
      if AllResolved(loggers) {
        SinksOfSenders();
      }
      hide AllResolved, Senders, SenderSinks;
    }

    lemma SinksOfSenders()
      requires AllResolved(loggers)
      ensures forall s :: s in SenderSinks(Senders(loggers)) <==>
                exists l :: l in loggers && l.sender.Some? && s == SenderSink(l.sender.value)
    {
      forall s
        ensures s in SenderSinks(Senders(loggers)) <==>
                exists l :: l in loggers && l.sender.Some? && s == SenderSink(l.sender.value)
      {
        var sinks := SenderSinks(Senders(loggers));
        if s in sinks {
          var i :| 0 <= i < |sinks| && sinks[i] == s;
          assert loggers[i] in loggers && s == SenderSink(loggers[i].sender.value);
        }
        if l :| l in loggers && l.sender.Some? && s == SenderSink(l.sender.value) {
          var i :| 0 <= i < |loggers| && loggers[i] == l;
          assert sinks[i] == s;
        }
      }
    }

    /** With a validated configuration, a stream reaches nothing exactly when it
        is not redirected, has no writer, and has no loggers or is suppressed;
        and a suppressed stream always reaches nothing. */
    lemma SilentExactlyWhenConfigured(loggersValid: bool)
      requires Acceptable(loggersValid) && (OutputNeedsLoggers() || ErrorNeedsLoggers() ==> AllResolved(loggers))
      ensures SpecifiedOutputSinks() == [] <==>
              !flags.sendOutputToError && IsNull(flags.output) && (|loggers| == 0 || flags.suppressOutput)
      ensures SpecifiedErrorSinks() == [] <==>
              !flags.sendErrorToOutput && IsNull(flags.error) && (|loggers| == 0 || flags.suppressError)
      ensures flags.suppressOutput ==> SpecifiedOutputSinks() == []
      ensures flags.suppressError ==> SpecifiedErrorSinks() == []
    {
      if OutputLogging() || ErrorLogging() {
        assert AllResolved(loggers) ==> |SenderSinks(Senders(loggers))| == |loggers|;
      }
    }

    /** Of the two wrapped senders, `Close` closes exactly one. */
    lemma ClosesOneOfThem()
      requires Valid() && Acceptable(true) && OutputSettled() && ErrorSettled() && (OutputLogging() || ErrorLogging())
      ensures AllResolved(loggers) && AsOftenAsListed(loggers)
      ensures outputSender.Some? <==> !(errorSender.Some? && (flags.suppressOutput || flags.sendOutputToError))
      ensures outputSender.Some? ==> outputSender.value.senders == Senders(loggers)
      ensures errorSender.Some? ==> errorSender.value.senders == Senders(loggers)
    {
      hide OwnSenders, Sinks, SenderSinks, AllResolved, Senders, AsOftenAsListed;
      SameCounts(loggers, factory);
    }

    lemma NothingToClose()
      requires Valid() && !OutputLogging() && !ErrorLogging()
      ensures outputSender.None? && errorSender.None?
    {
    }

    /** After both streams of a validated configuration were resolved, each
        logger's sender is closed as often as the logger is listed, shared by the
        streams or not: exactly once each, exactly if no logger is listed twice. */
    method Close()
      requires Valid()
      modifies this`writersClosed, factory`closed
      ensures Acceptable(true) && OutputSettled() && ErrorSettled() && (OutputLogging() || ErrorLogging()) ==>
                && AllResolved(loggers)
                && factory.closed == old(factory.closed) + Senders(loggers)
                && AsOftenAsListed(loggers)
      ensures (outputSender.None? && errorSender.None?) || (!OutputLogging() && !ErrorLogging()) ==>
                factory.closed == old(factory.closed)
      ensures writersClosed == old(writersClosed)
                + (if outputSender.Some? then [outputSender.value.id] else [])
                + (if errorSender.Some? then [errorSender.value.id] else [])
    {
      hide Valid, Acceptable, OutputSettled, ErrorSettled, OutputLogging, ErrorLogging, OwnSenders, AllResolved, Senders;
      hide AsOftenAsListed;
      if !OutputLogging() && !ErrorLogging() {
        NothingToClose();
      }
      if Acceptable(true) && OutputSettled() && ErrorSettled() && (OutputLogging() || ErrorLogging()) {
        ClosesOneOfThem();
      }
      if outputSender.Some? {
        writersClosed := writersClosed + [outputSender.value.id];
      }
      if errorSender.Some? {
        writersClosed := writersClosed + [errorSender.value.id];
      }
      if outputSender.Some? {
        factory.closed := factory.closed + outputSender.value.senders;
      }
      if errorSender.Some? && (flags.suppressOutput || flags.sendOutputToError) {
        factory.closed := factory.closed + errorSender.value.senders;
      }
    }
  }

  method ResolvedCopy(original: Output) returns (copy: Output)
    requires original.Valid() && original.Acceptable(true) && AllResolved(original.loggers)
    modifies (set l | l in original.loggers)`sender, original.factory
    ensures fresh(copy) && original.Valid() && copy.Valid() && copy.OutputSettled() && copy.ErrorSettled()
    ensures copy.flags == original.flags && copy.loggers == original.loggers && copy.factory == original.factory
    ensures copy.Acceptable(true)
    ensures copy.OutputLogging() == original.OutputLogging() && copy.ErrorLogging() == original.ErrorLogging()
    ensures forall l :: l in original.loggers ==> l.sender == old(l.sender)
    ensures AllResolved(original.loggers) && Senders(original.loggers) == old(Senders(original.loggers))
    ensures AsOftenAsListed(original.loggers) == old(AsOftenAsListed(original.loggers))
    ensures original.factory.closed == old(original.factory.closed)
  {
    hide OwnSenders, Sinks, SenderSinks, Senders, Missing;
    NoneMissing(original.loggers);
    copy := original.Copy();
    assert copy.Resolvable();
    var streams := copy.ResolveStreams();
  }

  /** A copy shares the loggers, so resolving and closing both the original and the
      copy closes each sender twice. */
  method CloseBoth(original: Output) returns (copy: Output)
    requires original.Valid() && original.Acceptable(true) && original.OutputSettled() && original.ErrorSettled()
    requires (original.OutputLogging() || original.ErrorLogging()) && Distinct(original.loggers)
    modifies original, (set l | l in original.loggers)`sender, original.factory
    ensures AllResolved(original.loggers)
    ensures forall l :: l in original.loggers ==>
              && l.sender == old(l.sender)
              && Times(l.sender.value, original.factory.closed)
                 == Times(l.sender.value, old(original.factory.closed)) + 2
  {
    hide OwnSenders, Sinks, SenderSinks, Senders, AllResolved, AsOftenAsListed, Times, Output.Valid, Output.Acceptable;
    hide Output.OutputLogging, Output.ErrorLogging, Output.OutputSettled, Output.ErrorSettled;
    original.ClosesOneOfThem();
    ghost var before := original.factory.closed;
    copy := ResolvedCopy(original);
    original.Close();
    copy.Close();
    ClosedTwice(original.loggers, before);
  }

  lemma ClosedTwice(loggers: seq<Logger>, before: seq<nat>)
    requires AsOftenAsListed(loggers) && Distinct(loggers)
    ensures forall l :: l in loggers ==>
              l.sender.Some?
              && Times(l.sender.value, before + Senders(loggers) + Senders(loggers)) == Times(l.sender.value, before) + 2
  {
    hide AsOftenAsListed, Senders, Times;
    forall l | l in loggers
      ensures l.sender.Some?
              && Times(l.sender.value, before + Senders(loggers) + Senders(loggers)) == Times(l.sender.value, before) + 2
    {
      OnceInDistinct(loggers, l);
      CountTwice(before, Senders(loggers), l.sender.value);
    }
  }

  /** Two loggers, the second of which to be resolved cannot make its sender: the
      sender of the other stays open. */
  method OneLeftOpen() returns (streams: Option<(Stream, Stream)>, loggers: seq<Logger>, factory: Factory)
    ensures streams.None? && |loggers| == 2 && factory.calls == 2 && factory.closed == []
    ensures exists l :: l in loggers && l.sender == Some(0)
  {
    factory := new Factory(k => k == 1);
    var first := new Logger(factory);
    var second := new Logger(factory);
    loggers := [first, second];
    var output := new Output(Flags(Nil, Nil, false, false, false, false), loggers, factory);
    assert !output.Resolvable() by {
      assert loggers[0] == first && loggers[1] == second;
      assert Missing(loggers) == {first, second};
      assert factory.fails(1);
    }
    hide OwnSenders, Missing, Succeed, Output.Valid, Output.OutputSettled, Output.ErrorSettled;
    streams := output.ResolveStreams();
    assert factory.fails(1) && !factory.fails(0);
  }

  // ----- how often each sender is closed

  /** Each logger's sender occurs in the list of senders as often as the logger is
      listed, which is once for every logger exactly if the loggers are distinct. */
  ghost predicate AsOftenAsListed(loggers: seq<Logger>)
    reads loggers
  {
    && (forall l :: l in loggers ==> l.sender.Some? && Times(l.sender.value, Senders(loggers)) == Times(l, loggers))
    && ((forall l :: l in loggers ==> Times(l.sender.value, Senders(loggers)) == 1) <==> Distinct(loggers))
  }

  lemma {:induction false} SameCounts(loggers: seq<Logger>, factory: Factory)
    requires OwnSenders(loggers, factory) && AllResolved(loggers)
    ensures AsOftenAsListed(loggers)
  {
    DistinctIsOnce(loggers);
    forall l | l in loggers
      ensures Times(l.sender.value, Senders(loggers)) == Times(l, loggers)
    {
      SameCount(loggers, Senders(loggers), loggers, l, factory);
    }
  }

  lemma {:induction false} SameCount(part: seq<Logger>, ids: seq<nat>, loggers: seq<Logger>, l: Logger, factory: Factory)
    requires OwnSenders(loggers, factory) && AllResolved(loggers) && l in loggers
    requires |ids| == |part|
    requires forall i :: 0 <= i < |part| ==> part[i] in loggers && part[i].sender == Some(ids[i])
    ensures Times(l.sender.value, ids) == Times(l, part)
  {
    if part != [] {
      var n := |part| - 1;
      SameCount(part[..n], ids[..n], loggers, l, factory);
      assert part == part[..n] + [part[n]] && ids == ids[..n] + [ids[n]];
    }
  }

  lemma OnceInDistinct(loggers: seq<Logger>, l: Logger)
    requires AsOftenAsListed(loggers) && Distinct(loggers) && l in loggers
    ensures l.sender.Some? && Times(l.sender.value, Senders(loggers)) == 1
  {
  }

  lemma CountTwice<T>(before: seq<T>, s: seq<T>, x: T)
    requires Times(x, s) == 1
    ensures Times(x, before + s + s) == Times(x, before) + 2
  {
  }

  lemma DistinctIsOnce<T>(s: seq<T>)
    ensures (forall x :: x in s ==> Times(x, s) == 1) <==> Distinct(s)
  {
    if forall x :: x in s ==> Times(x, s) == 1 {
      forall i, j | 0 <= i < j < |s| ensures s[i] != s[j] {
        SplitCount(s, i);
        assert Times(s[i], s) == 1;
        assert s[j] == s[i + 1..][j - i - 1];
      }
    }
    if Distinct(s) {
      forall x | x in s ensures Times(x, s) == 1 {
        var i :| 0 <= i < |s| && s[i] == x;
        SplitCount(s, i);
        assert x !in s[..i] && x !in s[i + 1..];
      }
    }
  }

  lemma SplitCount<T>(s: seq<T>, i: nat)
    requires i < |s|
    ensures Times(s[i], s) == Times(s[i], s[..i]) + 1 + Times(s[i], s[i + 1..])
  {
    assert s == s[..i] + [s[i]] + s[i + 1..];
  }

  // ----- redirection

  /** What shows that `GetOutput` and `GetError` stop calling each other: a number
      for each that every redirected call lowers. */
  ghost predicate Lowers(f: Flags, measure: bool -> nat) {
    && (f.sendOutputToError ==> measure(false) < measure(true))
    && (f.sendErrorToOutput ==> measure(true) < measure(false))
  }

  /** The number that the two methods use; `atOutput` says which of them. */
  function Measure(f: Flags, atOutput: bool): nat {
    if (if atOutput then f.sendOutputToError else f.sendErrorToOutput) then 1 else 0
  }

  /** The two stop calling each other for exactly the flags without a redirection
      cycle, and with the methods' own measure. */
  lemma RedirectionEnds(f: Flags)
    ensures (exists measure :: Lowers(f, measure)) <==> !(f.sendOutputToError && f.sendErrorToOutput)
    ensures (exists measure :: Lowers(f, measure)) <==> Lowers(f, atOutput => Measure(f, atOutput))
  {
    if !(f.sendOutputToError && f.sendErrorToOutput) {
      assert Lowers(f, atOutput => Measure(f, atOutput));
    }
  }
}
