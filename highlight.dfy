/**
  The Highlight backend error client: a lifecycle state machine (idle, started,
  stopped), the ConsumeError operation that turns an application error into a
  BackendErrorObjectInput record and pushes it onto a bounded FIFO queue, the flush
  that drains a snapshot of that queue, the request interceptor that reads the
  session and request identifiers out of the `X-Highlight-Request` header, and the
  GraphQL sink's empty-batch guard.

  The package globals of the Go client (`state`, `errorChan`) become the fields of
  one `Client` object; the background goroutine's select loop is replaced by its
  sequential effects (`FlushAndSend` for the timer branch, `Shutdown` for the
  interrupt, signal and cancellation branches).
*/
module Highlight {
  import opened Wrappers
  import Splitting

  // ---------------------------------------------------------------------------
  // Records, errors and the formatting the client delegates to libraries
  // ---------------------------------------------------------------------------

  /** `time.Time`; 0 stands for Go's zero time. */
  type Time = int

  /** A `github.com/pkg/errors` Frame: a program counter. */
  datatype Frame = Frame(pc: nat)

  /** BackendErrorObjectInput; `payload` is a pointer in Go, so it may be nil. */
  datatype ErrorRecord = ErrorRecord(
    sessionSecureID: string,
    requestID: string,
    event: string,
    typ: string,
    url: string,
    source: string,
    stackTrace: string,
    timestamp: Time,
    payload: Option<string>)

  /** The zero-valued record, which `flush` treats as "no record". */
  const ZeroRecord := ErrorRecord("", "", "", "", "", "", "", 0, None)

  /** Capacity of the buffered `errorChan`. */
  const Capacity := 128

  const BackendType := "BACKEND"

  /**
    The value handed to ConsumeError, by the branch of Go's type switch it takes:
    an error with a stack trace, a plain `error`, or any other value, carried here
    as its `%v` rendering.
  */
  datatype ErrorValue =
    | StackTracer(msg: string, frames: seq<Frame>)
    | PlainError(msg: string)
    | Other(rendering: string)

  /**
    The request context as ConsumeError sees it: the values stored under
    `highlightSessionSecureID` and `highlightRequestID`, if any.
  */
  datatype Context = Context(sessionSecureID: Option<string>, requestID: Option<string>)

  /**
    The library serialisation ConsumeError relies on: `json.Marshal` of a `[]string`
    and `Frame.MarshalText`; `None` is a returned error.
  */
  datatype Codec = Codec(
    marshalStrings: seq<string> -> Option<string>,
    marshalFrame: Frame -> Option<string>)

  /** The errors ConsumeError can return. */
  datatype ConsumeErr =
    | WorkerStopped
    | SessionIDMissing
    | RequestIDMissing
    | TagsMarshalFailed
    | NoStackFrames
    | FrameMarshalFailed
    | StackMarshalFailed

  const WorkerStoppedText := "highlight worker stopped"
  const SessionIDMissingText := "context does not contain highlightSessionSecureID; context must have injected values from highlight.InterceptRequest"
  const RequestIDMissingText := "context does not contain highlightRequestID; context must have injected values from highlight.InterceptRequest"
  const NoStackFramesText := "no stack frames in stack trace for stackTracer errors"

  /**
    The `Error()` text of the errors ConsumeError makes itself; the marshalling errors
    are the library's own, whose text is not part of this model.
  */
  function Message(e: ConsumeErr): (r: Option<string>)
    ensures r.Some? <==> !(e.TagsMarshalFailed? || e.FrameMarshalFailed? || e.StackMarshalFailed?)
    ensures r.Some? ==> |r.value| > 0
  {
    match e
    case WorkerStopped => Some(WorkerStoppedText)
    case SessionIDMissing => Some(SessionIDMissingText)
    case RequestIDMissing => Some(RequestIDMissingText)
    case NoStackFrames => Some(NoStackFramesText)
    case _ => None
  }

  /** The client's own errors are told apart by their text alone. */
  lemma {:induction false} MessagesDistinct(e1: ConsumeErr, e2: ConsumeErr)
    requires Message(e1).Some? && Message(e1) == Message(e2)
    ensures e1 == e2
  {
    assert |WorkerStoppedText| < |RequestIDMissingText| < |SessionIDMissingText|;
    assert |NoStackFramesText| < |RequestIDMissingText| && |NoStackFramesText| != |WorkerStoppedText|;
  }

  // ---------------------------------------------------------------------------
  // Lifecycle
  // ---------------------------------------------------------------------------

  datatype AppState = Idle | Started | Stopped

  /** The lifecycle part of the client: its state and whether the queue is closed. */
  datatype Lifecycle = Lifecycle(state: AppState, closed: bool)

  const Initial := Lifecycle(Idle, false)

  /**
    The events that move the lifecycle: a start call, and a stop (an explicit Stop,
    an OS signal or a cancelled context all end in the same shutdown step).
  */
  datatype Event = StartCall | StopCall

  /** The queue is closed exactly when the worker has stopped. */
  predicate Consistent(l: Lifecycle)
  {
    l.closed == (l.state == Stopped)
  }

  /** ConsumeError accepts errors in every state but `Stopped`. */
  predicate Accepting(l: Lifecycle)
  {
    l.state != Stopped
  }

  /**
    One lifecycle transition, with start a no-op unless the client is idle, and
    shutdown a no-op unless it is started.
  */
  function Step(l: Lifecycle, e: Event): (r: Lifecycle)
    ensures Consistent(l) ==> Consistent(r)
    ensures l.state == Stopped ==> r == l
    ensures e == StartCall ==> r.closed == l.closed && (r.state == Started <==> l.state != Stopped)
    ensures e == StopCall ==> r.state == (if l.state == Idle then Idle else Stopped)
  {
    match e
    case StartCall => if l.state == Idle then Lifecycle(Started, l.closed) else l
    case StopCall => if l.state == Started then Lifecycle(Stopped, true) else l
  }

  /** The start transition as the source writes it: only `Started` is guarded. */
  function StepAsWritten(l: Lifecycle, e: Event): (r: Lifecycle)
    ensures e == StartCall ==> r == Lifecycle(Started, l.closed)
    ensures e == StopCall ==> r == Step(l, StopCall)
  {
    match e
    case StartCall => if l.state == Started then l else Lifecycle(Started, l.closed)
    case StopCall => if l.state == Stopped || l.state == Idle then l else Lifecycle(Stopped, true)
  }

  function Run(l: Lifecycle, events: seq<Event>): Lifecycle
    decreases |events|
  {
    if events == [] then l else Run(Step(l, events[0]), events[1..])
  }

  function RunAsWritten(l: Lifecycle, events: seq<Event>): Lifecycle
    decreases |events|
  {
    if events == [] then l else RunAsWritten(StepAsWritten(l, events[0]), events[1..])
  }

  /** From any state whose queue is closed exactly when stopped, every run keeps it so. */
  lemma {:induction false} RunKeepsConsistent(l: Lifecycle, events: seq<Event>)
    requires Consistent(l)
    ensures Consistent(Run(l, events))
    decreases |events|
  {
    if events != [] {
      RunKeepsConsistent(Step(l, events[0]), events[1..]);
    }
  }

  /** `Stopped` is terminal: no sequence of events leaves it. */
  lemma {:induction false} StoppedIsTerminal(l: Lifecycle, events: seq<Event>)
    requires l.state == Stopped
    ensures Run(l, events) == l
    decreases |events|
  {
    if events != [] {
      StoppedIsTerminal(Step(l, events[0]), events[1..]);
    }
  }

  /** Starting twice has the effect of starting once. */
  lemma {:induction false} StartIdempotent(l: Lifecycle)
    ensures Step(Step(l, StartCall), StartCall) == Step(l, StartCall)
    ensures Run(l, [StartCall, StartCall]) == Run(l, [StartCall])
  {
    assert [StartCall, StartCall][1..] == [StartCall];
  }

  /**
    As written, a start after a stop restarts the worker while the queue stays closed: the
    client is accepting again, and the next ConsumeError would send on the closed
    channel.
  */
  lemma {:induction false} RestartAfterStopAsWritten()
    ensures var l := RunAsWritten(Initial, [StartCall, StopCall, StartCall]);
      l == Lifecycle(Started, true) && Accepting(l) && !Consistent(l)
    ensures Run(Initial, [StartCall, StopCall, StartCall]) == Lifecycle(Stopped, true)
  {
    var es := [StartCall, StopCall, StartCall];
    assert es[1..] == [StopCall, StartCall] && es[1..][1..] == [StartCall] && es[1..][1..][1..] == [];
  }

  // ---------------------------------------------------------------------------
  // Record construction and error classification
  // ---------------------------------------------------------------------------

  /** The text of every frame, or `None` when one of them fails to marshal. */
  function FrameTexts(frames: seq<Frame>, codec: Codec): (r: Option<seq<string>>)
    ensures r.Some? <==> forall i :: 0 <= i < |frames| ==> codec.marshalFrame(frames[i]).Some?
    ensures r.Some? ==> (|r.value| == |frames|
      && forall i :: 0 <= i < |frames| ==> r.value[i] == codec.marshalFrame(frames[i]).value)
  {
    if frames == [] then Some([])
    else
      var init := frames[..|frames| - 1];
      match FrameTexts(init, codec)
      case None => None
      case Some(texts) =>
        match codec.marshalFrame(frames[|frames| - 1])
        case None => None
        case Some(t) => Some(texts + [t])
  }

  /** The `for _, frame := range stack` loop of ConsumeError. */
  method MarshalFrames(frames: seq<Frame>, codec: Codec) returns (r: Option<seq<string>>)
    ensures r == FrameTexts(frames, codec)
  {
    var texts: seq<string> := [];
    var i := 0;
    while i < |frames|
      invariant 0 <= i <= |frames|
      invariant FrameTexts(frames[..i], codec) == Some(texts)
    {
      var t := codec.marshalFrame(frames[i]);
      assert frames[..i + 1][..i] == frames[..i];
      if t.None? {
        assert FrameTexts(frames[..i + 1], codec).None?;
        assert forall k :: i < k <= |frames| ==> frames[..k][..i + 1] == frames[..i + 1];
        FrameTextsPrefixFails(frames, i + 1, codec);
        return None;
      }
      texts := texts + [t.value];
      i := i + 1;
    }
    assert frames[..i] == frames;
    return Some(texts);
  }

  /** Once a prefix of the frames fails to marshal, so do all the frames. */
  lemma {:induction false} FrameTextsPrefixFails(frames: seq<Frame>, k: nat, codec: Codec)
    requires k <= |frames| && FrameTexts(frames[..k], codec).None?
    ensures FrameTexts(frames, codec).None?
  {
    var j :| 0 <= j < k && codec.marshalFrame(frames[..k][j]).None?;
    assert frames[..k][j] == frames[j];
  }

  /**
    The type switch of ConsumeError: the record's `(Event, StackTrace)`. A plain error
    or any other value gives its text twice; a stack tracer needs at least one frame,
    every frame marshalled, and the list of frame texts marshalled.
  */
  function Classify(input: ErrorValue, codec: Codec): (r: Result<(string, string), ConsumeErr>)
    ensures input.PlainError? ==> r == Success((input.msg, input.msg))
    ensures input.Other? ==> r == Success((input.rendering, input.rendering))
    ensures input.StackTracer? && input.frames == [] ==> r == Failure(NoStackFrames)
    ensures input.StackTracer? && input.frames != []
      && (exists i :: 0 <= i < |input.frames| && codec.marshalFrame(input.frames[i]).None?)
      ==> r == Failure(FrameMarshalFailed)
    ensures input.StackTracer? && r.Success? ==> r.value.0 == input.msg
    ensures r.Failure? ==> r.error in {NoStackFrames, FrameMarshalFailed, StackMarshalFailed}
  {
    match input
    case StackTracer(msg, frames) =>
      if |frames| < 1 then Failure(NoStackFrames)
      else (
        match FrameTexts(frames, codec)
        case None => Failure(FrameMarshalFailed)
        case Some(texts) =>
          match codec.marshalStrings(texts)
          case None => Failure(StackMarshalFailed)
          case Some(trace) => Success((msg, trace)))
    case PlainError(msg) => Success((msg, msg))
    case Other(rendering) => Success((rendering, rendering))
  }

  /**
    A stack tracer whose frames marshal one by one to `texts` is recorded with its
    message as event and the serialised `texts` as stack trace, or refused with the
    stack-marshalling error when that list cannot be serialised.
  */
  lemma {:induction false} ClassifyStackTracer(msg: string, frames: seq<Frame>, texts: seq<string>, codec: Codec)
    requires |frames| >= 1 && |texts| == |frames|
    requires forall i :: 0 <= i < |frames| ==> codec.marshalFrame(frames[i]) == Some(texts[i])
    ensures codec.marshalStrings(texts).None? ==>
      Classify(StackTracer(msg, frames), codec) == Failure(StackMarshalFailed)
    ensures codec.marshalStrings(texts).Some? ==>
      Classify(StackTracer(msg, frames), codec) == Success((msg, codec.marshalStrings(texts).value))
  {
    var ft := FrameTexts(frames, codec);
    assert ft.Some?;
    assert ft.value == texts;
  }

  /**
    Everything ConsumeError does once the worker is known not to be stopped, up to the
    push: the session check first, the request check second, both before any
    formatting; then the record with the context's identifiers, type BACKEND, the
    serialised tags as payload, the capture time, empty URL and source, and the
    classified event and stack trace. A built record is never the sentinel.
  */
  function Convert(ctx: Context, input: ErrorValue, tags: seq<string>, now: Time, codec: Codec)
    : (r: Result<ErrorRecord, ConsumeErr>)
    ensures ctx.sessionSecureID.None? ==> r == Failure(SessionIDMissing)
    ensures ctx.sessionSecureID.Some? && ctx.requestID.None? ==> r == Failure(RequestIDMissing)
    ensures ctx.sessionSecureID.Some? && ctx.requestID.Some? && codec.marshalStrings(tags).None? ==>
      r == Failure(TagsMarshalFailed)
    ensures ctx.sessionSecureID.Some? && ctx.requestID.Some? && codec.marshalStrings(tags).Some? ==>
      (Classify(input, codec).Failure? ==> r == Failure(Classify(input, codec).error))
    ensures r.Success? <==>
      ctx.sessionSecureID.Some? && ctx.requestID.Some?
      && codec.marshalStrings(tags).Some? && Classify(input, codec).Success?
    ensures r.Success? ==>
      && r.value.sessionSecureID == ctx.sessionSecureID.value
      && r.value.requestID == ctx.requestID.value
      && r.value.typ == "BACKEND"
      && r.value.payload == codec.marshalStrings(tags)
      && r.value.timestamp == now
      && r.value.url == "" && r.value.source == ""
      && (r.value.event, r.value.stackTrace) == Classify(input, codec).value
      && r.value != ZeroRecord
  {
    if ctx.sessionSecureID.None? then Failure(SessionIDMissing)
    else if ctx.requestID.None? then Failure(RequestIDMissing)
    else
      match codec.marshalStrings(tags)
      case None => Failure(TagsMarshalFailed)
      case Some(payload) =>
        match Classify(input, codec)
        case Failure(e) => Failure(e)
        case Success(eventAndTrace) =>
          Success(ErrorRecord(ctx.sessionSecureID.value, ctx.requestID.value,
            eventAndTrace.0, BackendType, "", "", eventAndTrace.1, now, Some(payload)))
  }

  // ---------------------------------------------------------------------------
  // Draining
  // ---------------------------------------------------------------------------

  predicate NoSentinels(s: seq<ErrorRecord>)
  {
    forall i :: 0 <= i < |s| ==> s[i] != ZeroRecord
  }

  /** The records of `s` in order, with every sentinel left out. */
  function DropSentinels(s: seq<ErrorRecord>): (r: seq<ErrorRecord>)
    ensures |r| <= |s|
    ensures NoSentinels(r)
    ensures forall i :: 0 <= i < |r| ==> r[i] in s
    ensures NoSentinels(s) ==> r == s
  {
    if s == [] then []
    else
      var init := DropSentinels(s[..|s| - 1]);
      assert forall x :: x in s[..|s| - 1] ==> x in s;
      assert NoSentinels(s) ==> NoSentinels(s[..|s| - 1]);
      assert s == s[..|s| - 1] + [s[|s| - 1]];
      if s[|s| - 1] == ZeroRecord then init else init + [s[|s| - 1]]
  }

  /** Draining one more record extends the batch by it, unless it is the sentinel. */
  lemma {:induction false} DropSentinelsSnoc(s: seq<ErrorRecord>, x: ErrorRecord)
    ensures DropSentinels(s + [x]) == DropSentinels(s) + (if x == ZeroRecord then [] else [x])
  {
    assert (s + [x])[..|s|] == s;
  }

  /** Taking the record at index `i` of a snapshot off the head of what is left of it. */
  lemma {:induction false} DrainStep(snapshot: seq<ErrorRecord>, i: nat)
    requires i < |snapshot|
    ensures snapshot[i..][0] == snapshot[i] && snapshot[i..][1..] == snapshot[i + 1..]
    ensures DropSentinels(snapshot[..i + 1])
         == DropSentinels(snapshot[..i]) + (if snapshot[i] == ZeroRecord then [] else [snapshot[i]])
  {
    assert snapshot[..i + 1] == snapshot[..i] + [snapshot[i]];
    DropSentinelsSnoc(snapshot[..i], snapshot[i]);
  }

  /** Dropping sentinels distributes over concatenation, so it keeps the order of records. */
  lemma {:induction false} DropSentinelsAppend(a: seq<ErrorRecord>, b: seq<ErrorRecord>)
    ensures DropSentinels(a + b) == DropSentinels(a) + DropSentinels(b)
    decreases |b|
  {
    if b != [] {
      var b', x := b[..|b| - 1], b[|b| - 1];
      assert a + b == (a + b') + [x] && b == b' + [x];
      DropSentinelsSnoc(a + b', x);
      DropSentinelsSnoc(b', x);
      DropSentinelsAppend(a, b');
    } else {
      assert a + b == a;
    }
  }

  /** Every real record is delivered exactly as often as it was queued: none lost, none doubled. */
  lemma {:induction false} DropSentinelsExactlyOnce(s: seq<ErrorRecord>, x: ErrorRecord)
    requires x != ZeroRecord
    ensures multiset(DropSentinels(s))[x] == multiset(s)[x]
    decreases |s|
  {
    if s != [] {
      var init := s[..|s| - 1];
      assert s == init + [s[|s| - 1]];
      DropSentinelsExactlyOnce(init, x);
    }
  }

  // ---------------------------------------------------------------------------
  // Interception and the sink
  // ---------------------------------------------------------------------------

  /**
    InterceptRequestWithContext: the header `<session>/<request>[/...]` sets both
    identifiers from the first two `/`-separated parts; a header with no `/`
    (including a missing, empty one) leaves the context as it was.
  */
  function InterceptRequestWithContext(ctx: Context, header: string): (r: Context)
    ensures '/' !in header ==> r == ctx
    ensures '/' in header ==>
      && r.sessionSecureID.Some? && r.requestID.Some?
      && var sid, rid := r.sessionSecureID.value, r.requestID.value;
      && '/' !in sid && '/' !in rid
      && sid + "/" + rid <= header
      && (|sid| + 1 + |rid| == |header| || header[|sid| + 1 + |rid|] == '/')
  {
    var ids := Splitting.Split(header, '/');
    if |ids| < 2 then
      assert multiset(header)['/'] == 0;
      ctx
    else
      Splitting.SplitFirstTwo(header, '/');
      Context(Some(ids[0]), Some(ids[1]))
  }

  /** A well-formed header yields exactly its two identifiers, whatever follows them. */
  lemma {:induction false} InterceptReadsIdentifiers(ctx: Context, sid: string, rid: string, rest: string)
    requires '/' !in sid && '/' !in rid
    requires rest == [] || rest[0] == '/'
    ensures InterceptRequestWithContext(ctx, sid + "/" + rid + rest) == Context(Some(sid), Some(rid))
  {
    assert sid + "/" + rid + rest == sid + ['/'] + rid + rest;
    Splitting.SplitTwoFields(sid, rid, rest, '/');
  }

  /** What one call of the sink did: whether the network was reached, and the error it returned. */
  datatype SinkCall = SinkCall(called: bool, err: Option<string>)

  /**
    graphqlRequester.trigger: an empty batch returns success without a network call;
    otherwise the batch goes to `mutate` and its error is returned.
  */
  function Trigger(batch: seq<ErrorRecord>, mutate: seq<ErrorRecord> -> Option<string>): (r: SinkCall)
    ensures r.called <==> |batch| >= 1
    ensures !r.called ==> r.err == None
    ensures r.called ==> r.err == mutate(batch)
  {
    if |batch| < 1 then SinkCall(false, None)
    else SinkCall(true, mutate(batch))
  }

  // ---------------------------------------------------------------------------
  // The client
  // ---------------------------------------------------------------------------

  class Client {
    var state: AppState
    var queue: seq<ErrorRecord>
    var closed: bool

    function Phase(): Lifecycle
      reads this
    {
      Lifecycle(state, closed)
    }

    /**
      The queue never exceeds its capacity and never holds a sentinel, and it is
      closed exactly when the worker has stopped.
    */
    ghost predicate Valid()
      reads this
    {
      |queue| <= Capacity && NoSentinels(queue) && Consistent(Phase())
    }

    /** The package's `init`: idle, with an empty open queue. */
    constructor ()
      ensures Valid()
      ensures Phase() == Initial && queue == []
    {
      state := Idle;
      queue := [];
      closed := false;
    }

    /** StartWithContext: starts an idle client; a no-op once started or stopped. */
    method StartWithContext()
      requires Valid()
      modifies this
      ensures Valid()
      ensures Phase() == Step(old(Phase()), StartCall)
      ensures old(state) == Idle ==> state == Started
      ensures old(state) != Idle ==> state == old(state)
      ensures queue == old(queue)
    {
      if state != Idle {
        return;
      }
      state := Started;
    }

    /** shutdown: a started client stops and closes its queue; otherwise nothing happens. */
    method Shutdown()
      requires Valid()
      modifies this
      ensures Valid()
      ensures Phase() == Step(old(Phase()), StopCall)
      ensures old(state) == Started ==> state == Stopped && closed
      ensures old(state) != Started ==> state == old(state) && closed == old(closed)
      ensures queue == old(queue)
    {
      if state == Stopped || state == Idle {
        return;
      }
      state := Stopped;
      closed := true;
    }

    /** Stop, followed by the worker's interrupt branch, which runs shutdown. */
    method Stop()
      requires Valid()
      modifies this
      ensures Valid()
      ensures Phase() == Step(old(Phase()), StopCall)
      ensures old(state) != Started ==> state == old(state) && closed == old(closed)
      ensures queue == old(queue)
    {
      if state == Stopped || state == Idle {
        return;
      }
      Shutdown();
    }

    /**
      ConsumeError: refused once the worker has stopped; otherwise the record built by
      `Convert` is appended at the tail of the queue, or its error is returned and the
      queue is left alone. The push blocks on a full queue, so a push requires room.
    */
    method ConsumeError(ctx: Context, input: ErrorValue, tags: seq<string>, now: Time, codec: Codec)
      returns (err: Option<ConsumeErr>)
      requires Valid()
      requires state != Stopped && Convert(ctx, input, tags, now, codec).Success? ==> |queue| < Capacity
      modifies this
      ensures Valid()
      ensures Phase() == old(Phase())
      ensures old(state) == Stopped ==> err == Some(WorkerStopped) && queue == old(queue)
      ensures old(state) != Stopped ==>
        match Convert(ctx, input, tags, now, codec)
        case Failure(e) => err == Some(e) && queue == old(queue)
        case Success(rec) => err == None && queue == old(queue) + [rec]
    {
      if state == Stopped {
        return Some(WorkerStopped);
      }
      if ctx.sessionSecureID.None? {
        return Some(SessionIDMissing);
      }
      if ctx.requestID.None? {
        return Some(RequestIDMissing);
      }
      var tagsJson := codec.marshalStrings(tags);
      if tagsJson.None? {
        return Some(TagsMarshalFailed);
      }
      var rec := ErrorRecord(ctx.sessionSecureID.value, ctx.requestID.value,
        "", BackendType, "", "", "", now, tagsJson);
      match input {
        case StackTracer(msg, frames) =>
          if |frames| < 1 {
            return Some(NoStackFrames);
          }
          var texts := MarshalFrames(frames, codec);
          if texts.None? {
            return Some(FrameMarshalFailed);
          }
          var trace := codec.marshalStrings(texts.value);
          if trace.None? {
            return Some(StackMarshalFailed);
          }
          rec := rec.(event := msg, stackTrace := trace.value);
        case PlainError(msg) =>
          rec := rec.(event := msg, stackTrace := msg);
        case Other(rendering) =>
          rec := rec.(event := rendering, stackTrace := rendering);
      }
      assert Convert(ctx, input, tags, now, codec) == Success(rec);
      queue := queue + [rec];
      return None;
    }

    /**
      flush: takes the queue's length, removes exactly that many records from the head
      and returns them in order, sentinels left out.
    */
    method Flush() returns (flushed: seq<ErrorRecord>)
      requires Valid()
      modifies this
      ensures Valid()
      ensures Phase() == old(Phase())
      ensures queue == []
      ensures flushed == DropSentinels(old(queue))
      ensures flushed == old(queue)
    {
      ghost var snapshot := queue;
      var n := |queue|;
      flushed := [];
      var i := 0;
      while i < n
        invariant 0 <= i <= n == |snapshot|
        invariant queue == snapshot[i..]
        invariant flushed == DropSentinels(snapshot[..i])
        invariant state == old(state) && closed == old(closed)
      {
        DrainStep(snapshot, i);
        var e := queue[0];
        queue := queue[1..];
        if e != ZeroRecord {
          flushed := flushed + [e];
        }
        i := i + 1;
      }
      assert snapshot[..n] == snapshot;
    }

    /**
      The worker's timer branch: flush, then hand the batch to the sink and ignore its
      error. The sink is reached only with a non-empty batch of real records.
    */
    method FlushAndSend(mutate: seq<ErrorRecord> -> Option<string>) returns (call: SinkCall)
      requires Valid()
      modifies this
      ensures Valid()
      ensures Phase() == old(Phase())
      ensures queue == []
      ensures call == Trigger(old(queue), mutate)
      ensures call.called <==> old(queue) != []
    {
      var batch := Flush();
      call := Trigger(batch, mutate);
    }
  }

  /**
    One case of the package's unit test: a fresh client is started, `ConsumeError` is
    called once, and, when it returns no error, the queue is flushed. A refused error
    leaves nothing to flush and carries the text the test compares; an accepted one
    is flushed as exactly one record, the one `Convert` builds.
  */
  method ConsumeErrorThenFlush(ctx: Context, input: ErrorValue, tags: seq<string>, now: Time, codec: Codec)
    returns (err: Option<ConsumeErr>, a: seq<ErrorRecord>)
    ensures err.None? <==> Convert(ctx, input, tags, now, codec).Success?
    ensures err.Some? ==> err == Some(Convert(ctx, input, tags, now, codec).error) && a == []
    ensures err.None? ==> a == [Convert(ctx, input, tags, now, codec).value]
    ensures ctx.sessionSecureID.None? ==> err.Some? && Message(err.value) == Some(SessionIDMissingText)
    ensures ctx.sessionSecureID.Some? && ctx.requestID.Some? && codec.marshalStrings(tags).Some? && input.PlainError? ==>
      err.None? && |a| == 1 && a[0].event == input.msg && a[0].stackTrace == input.msg
  {
    var client := new Client();
    client.StartWithContext();
    err := client.ConsumeError(ctx, input, tags, now, codec);
    if err.Some? {
      return err, [];
    }
    a := client.Flush();
  }
}
