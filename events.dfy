/** The events the delegate sends to the host over its channel: one named
    method invocation per event, with a payload map whose keys are fixed per
    event, and a reply callback on the two events the host must answer. */
module Events {
  import opened Values

  /** The callback attached to an invocation, if the host's answer is wanted. */
  datatype ReplyHandler = NoReply | NavigationDecision | JsHandlerAnswer

  /** One channel->InvokeMethod: method name, arguments, attached callback. */
  datatype OutboundMessage = OutboundMessage(name: string, arguments: Value, handler: ReplyHandler)

  /** The notifications a webview raises. Request, error, response and
      navigation-action objects are given by their encodable maps. */
  datatype Event =
    | LoadStart(url: Option<string>)
    | LoadStop(url: Option<string>)
    | ShouldOverrideUrlLoading(navigationAction: map<string, Value>)
    | ReceivedError(request: map<string, Value>, error: map<string, Value>)
    | ReceivedHttpError(request: map<string, Value>, errorResponse: map<string, Value>)
    | TitleChanged(title: Option<string>)
    | UpdateVisitedHistory(url: Option<string>, isReload: Option<bool>)
    | CallJsHandler(handlerName: string, args: string)
    | ConsoleMessage(message: string, messageLevel: int64)

  function EventName(e: Event): string
  {
    match e
    case LoadStart(_) => "onLoadStart"
    case LoadStop(_) => "onLoadStop"
    case ShouldOverrideUrlLoading(_) => "shouldOverrideUrlLoading"
    case ReceivedError(_, _) => "onReceivedError"
    case ReceivedHttpError(_, _) => "onReceivedHttpError"
    case TitleChanged(_) => "onTitleChanged"
    case UpdateVisitedHistory(_, _) => "onUpdateVisitedHistory"
    case CallJsHandler(_, _) => "onCallJsHandler"
    case ConsoleMessage(_, _) => "onConsoleMessage"
  }

  /** The keys of each event's payload. A navigation decision sends the
      navigation action's own map as its payload. */
  function PayloadKeys(e: Event): set<string>
  {
    match e
    case LoadStart(_) => {"url"}
    case LoadStop(_) => {"url"}
    case ShouldOverrideUrlLoading(action) => action.Keys
    case ReceivedError(_, _) => {"request", "error"}
    case ReceivedHttpError(_, _) => {"request", "errorResponse"}
    case TitleChanged(_) => {"title"}
    case UpdateVisitedHistory(_, _) => {"url", "isReload"}
    case CallJsHandler(_, _) => {"handlerName", "args"}
    case ConsoleMessage(_, _) => {"message", "messageLevel"}
  }

  /** Whether the host is expected to answer the event. */
  predicate WantsReply(e: Event)
  {
    e.ShouldOverrideUrlLoading? || e.CallJsHandler?
  }

  /** The invocation an event is sent as. */
  function Encode(e: Event): (m: OutboundMessage)
    ensures m.name == EventName(e)
    ensures m.arguments.Map? && m.arguments.entries.Keys == PayloadKeys(e)
    ensures m.handler != NoReply <==> WantsReply(e)
  {
    match e
    case LoadStart(url) => OutboundMessage("onLoadStart", Map(map["url" := OptionalString(url)]), NoReply)
    case LoadStop(url) => OutboundMessage("onLoadStop", Map(map["url" := OptionalString(url)]), NoReply)
    case ShouldOverrideUrlLoading(action) =>
      OutboundMessage("shouldOverrideUrlLoading", Map(action), NavigationDecision)
    case ReceivedError(request, error) =>
      OutboundMessage("onReceivedError", Map(map["request" := Map(request), "error" := Map(error)]), NoReply)
    case ReceivedHttpError(request, response) =>
      OutboundMessage("onReceivedHttpError",
                      Map(map["request" := Map(request), "errorResponse" := Map(response)]), NoReply)
    case TitleChanged(title) => OutboundMessage("onTitleChanged", Map(map["title" := OptionalString(title)]), NoReply)
    case UpdateVisitedHistory(url, isReload) =>
      OutboundMessage("onUpdateVisitedHistory",
                      Map(map["url" := OptionalString(url), "isReload" := OptionalBool(isReload)]), NoReply)
    case CallJsHandler(name, args) =>
      OutboundMessage("onCallJsHandler", Map(map["handlerName" := Str(name), "args" := Str(args)]), JsHandlerAnswer)
    case ConsoleMessage(message, level) =>
      OutboundMessage("onConsoleMessage", Map(map["message" := Str(message), "messageLevel" := I64(level)]), NoReply)
  }

  function MapAt(p: map<string, Value>, key: string): Option<map<string, Value>>
  {
    if key in p && p[key].Map? then Some(p[key].entries) else None
  }

  function StringAt(p: map<string, Value>, key: string): Option<string>
  {
    if key in p && p[key].Str? then Some(p[key].s) else None
  }

  function OptionalStringAt(p: map<string, Value>, key: string): Option<Option<string>>
  {
    if key in p then StringOrNull(p[key]) else None
  }

  /** How the host reads an invocation back into the event that produced it. */
  function Decode(m: OutboundMessage): Option<Event>
  {
    if !m.arguments.Map? then None
    else
      var p := m.arguments.entries;
      match m.handler
      case NavigationDecision =>
        if m.name == "shouldOverrideUrlLoading" then Some(ShouldOverrideUrlLoading(p)) else None
      case JsHandlerAnswer =>
        if m.name == "onCallJsHandler" && StringAt(p, "handlerName").Some? && StringAt(p, "args").Some? then
          Some(CallJsHandler(StringAt(p, "handlerName").value, StringAt(p, "args").value))
        else None
      case NoReply =>
        DecodeNotification(m.name, p)
  }

  function DecodeNotification(name: string, p: map<string, Value>): Option<Event>
  {
    if name == "onLoadStart" then
      (match OptionalStringAt(p, "url") case Some(u) => Some(LoadStart(u)) case None => None)
    else if name == "onLoadStop" then
      (match OptionalStringAt(p, "url") case Some(u) => Some(LoadStop(u)) case None => None)
    else if name == "onReceivedError" then
      (if MapAt(p, "request").Some? && MapAt(p, "error").Some? then
         Some(ReceivedError(MapAt(p, "request").value, MapAt(p, "error").value))
       else None)
    else if name == "onReceivedHttpError" then
      (if MapAt(p, "request").Some? && MapAt(p, "errorResponse").Some? then
         Some(ReceivedHttpError(MapAt(p, "request").value, MapAt(p, "errorResponse").value))
       else None)
    else if name == "onTitleChanged" then
      (match OptionalStringAt(p, "title") case Some(t) => Some(TitleChanged(t)) case None => None)
    else if name == "onUpdateVisitedHistory" then
      (if OptionalStringAt(p, "url").Some? && "isReload" in p && BoolOrNull(p["isReload"]).Some? then
         Some(UpdateVisitedHistory(OptionalStringAt(p, "url").value, BoolOrNull(p["isReload"]).value))
       else None)
    else if name == "onConsoleMessage" then
      (if StringAt(p, "message").Some? && "messageLevel" in p && p["messageLevel"].I64? then
         Some(ConsoleMessage(StringAt(p, "message").value, p["messageLevel"].l))
       else None)
    else None
  }

  /** Nothing an event carries is lost on the way: the host recovers the event
      from the invocation. */
  lemma DecodeEncode(e: Event)
    ensures Decode(Encode(e)) == Some(e)
  {
    match e
    case LoadStart(url) =>
      assert OptionalStringAt(Encode(e).arguments.entries, "url") == Some(url);
    case LoadStop(url) =>
      assert OptionalStringAt(Encode(e).arguments.entries, "url") == Some(url);
    case TitleChanged(title) =>
      assert OptionalStringAt(Encode(e).arguments.entries, "title") == Some(title);
    case UpdateVisitedHistory(url, isReload) =>
      assert OptionalStringAt(Encode(e).arguments.entries, "url") == Some(url);
    case _ =>
  }
}
