/** Replies to inbound method calls: the one-shot reply sink that Flutter hands
    the delegate with every call, and the continuations into which the
    asynchronous operations move it. */
module Replies {
  import opened Values

  /** MethodResult::Success(value) (Success() carries no value, i.e. null on the
      wire) or MethodResult::NotImplemented(). */
  datatype Reply = Success(value: Option<Value>) | NotImplemented

  /** The reply sink is one-shot: the first reply is delivered, any later one is
      ignored by the engine. */
  function Deliver(slot: Option<Reply>, r: Reply): Option<Reply>
  {
    if slot.None? then Some(r) else slot
  }

  /** The reply the caller observes after a sequence of reply attempts on one
      sink: exactly the first attempt, whatever follows it. */
  function ReplyAfterAttempts(slot: Option<Reply>, attempts: seq<Reply>): (r: Option<Reply>)
    ensures slot.Some? ==> r == slot
    ensures slot.None? && attempts != [] ==> r == Some(attempts[0])
    ensures slot.None? && attempts == [] ==> r.None?
    decreases |attempts|
  {
    if attempts == [] then slot
    else ReplyAfterAttempts(Deliver(slot, attempts[0]), attempts[1..])
  }

  /** The flutter::MethodResult of one inbound call. */
  class ReplySink {
    var reply: Option<Reply>

    constructor ()
      ensures reply == None
    {
      reply := None;
    }

    method Success(v: Option<Value>)
      modifies this
      ensures reply == Deliver(old(reply), Reply.Success(v))
    {
      reply := Deliver(reply, Reply.Success(v));
    }

    method NotImplemented()
      modifies this
      ensures reply == Deliver(old(reply), Reply.NotImplemented)
    {
      reply := Deliver(reply, Reply.NotImplemented);
    }
  }

  /** What a continuation does with the value the webview passes it. */
  datatype Continuation =
    | ReplyWithBool        // canGoBackOrForward
    | ReplyWithString      // evaluateJavascript, callAsyncJavaScript
    | ReplyWithHistory     // getCopyBackForwardList
    | ReplyWithScreenshot  // takeScreenshot

  /** The value the webview passes to a continuation. A WebHistory is given by
      its encodable map. */
  datatype Completion =
    | BoolValue(b: bool)
    | StringValue(s: string)
    | HistoryValue(history: map<string, Value>)
    | ScreenshotValue(data: Option<string>)

  /** The webview passes each continuation a value of the type it was registered for. */
  predicate Fits(k: Continuation, c: Completion)
  {
    match k
    case ReplyWithBool => c.BoolValue?
    case ReplyWithString => c.StringValue?
    case ReplyWithHistory => c.HistoryValue?
    case ReplyWithScreenshot => c.ScreenshotValue?
  }

  /** How the host reads a continuation's reply value back into the value the
      webview passed: a bool, a string, a history map, or optional data. */
  function ReadBack(k: Continuation, v: Value): Option<Completion>
  {
    match k
    case ReplyWithBool => if v.Bool? then Some(BoolValue(v.b)) else None
    case ReplyWithString => if v.Str? then Some(StringValue(v.s)) else None
    case ReplyWithHistory => if v.Map? then Some(HistoryValue(v.entries)) else None
    case ReplyWithScreenshot =>
      match StringOrNull(v)
      case Some(d) => Some(ScreenshotValue(d))
      case None => None
  }

  /** The reply a continuation sends for the value it receives: a success
      whose value the host reads back as exactly that value. */
  function Resume(k: Continuation, c: Completion): (r: Reply)
    requires Fits(k, c)
    ensures r.Success? && r.value.Some?
    ensures ReadBack(k, r.value.value) == Some(c)
  {
    match c
    case BoolValue(b) => Success(Some(Bool(b)))
    case StringValue(s) => Success(Some(Str(s)))
    case HistoryValue(h) => Success(Some(Map(h)))
    case ScreenshotValue(d) => Success(Some(OptionalString(d)))
  }

  /** A deferred reply carries exactly the value the webview passed: two
      different values never produce the same reply. */
  lemma ResumeIsInjective(k: Continuation, c1: Completion, c2: Completion)
    requires Fits(k, c1) && Fits(k, c2)
    requires Resume(k, c1) == Resume(k, c2)
    ensures c1 == c2
  {
    assert Some(c1) == ReadBack(k, Resume(k, c1).value.value) == ReadBack(k, Resume(k, c2).value.value) == Some(c2);
  }

  /** The completion lambda that owns the moved reply sink of one asynchronous call. */
  class PendingReply {
    const kind: Continuation
    const sink: ReplySink

    constructor (kind: Continuation, sink: ReplySink)
      ensures this.kind == kind && this.sink == sink
    {
      this.kind := kind;
      this.sink := sink;
    }

    /** The webview invokes the continuation with its result. */
    method Complete(c: Completion)
      requires Fits(kind, c)
      modifies sink
      ensures sink.reply == Deliver(old(sink.reply), Resume(kind, c))
    {
      sink.Success(Resume(kind, c).value);
    }
  }
}
