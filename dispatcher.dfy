/** The operation table of the webview's method channel, as a specification:
    which reply an inbound call gets, when, and which operations of the webview
    and of its InAppBrowser it invokes, with which arguments. The delegate's
    HandleMethodCall is proved to behave exactly as Dispatch says. */
module Dispatcher {
  import opened Values
  import opened Replies
  import T = Target

  /** An inbound call: the method name and the argument value. */
  datatype MethodCall = MethodCall(methodName: string, arguments: Value)

  /** The methods the channel implements. */
  datatype MethodId =
    | GetUrl | GetTitle | LoadUrl | LoadFile | LoadData | Reload | GoBack | CanGoBack
    | GoForward | CanGoForward | GoBackOrForward | CanGoBackOrForward | IsLoading
    | StopLoading | EvaluateJavascript | CallAsyncJavaScript | GetCopyBackForwardList
    | AddUserScript | RemoveUserScript | RemoveUserScriptsByGroupName | RemoveAllUserScripts
    | TakeScreenshot | Show | Hide | Close

  /** The exact, case-sensitive method name on the wire. */
  function WireName(m: MethodId): string
  {
    match m
    case GetUrl => "getUrl"
    case GetTitle => "getTitle"
    case LoadUrl => "loadUrl"
    case LoadFile => "loadFile"
    case LoadData => "loadData"
    case Reload => "reload"
    case GoBack => "goBack"
    case CanGoBack => "canGoBack"
    case GoForward => "goForward"
    case CanGoForward => "canGoForward"
    case GoBackOrForward => "goBackOrForward"
    case CanGoBackOrForward => "canGoBackOrForward"
    case IsLoading => "isLoading"
    case StopLoading => "stopLoading"
    case EvaluateJavascript => "evaluateJavascript"
    case CallAsyncJavaScript => "callAsyncJavaScript"
    case GetCopyBackForwardList => "getCopyBackForwardList"
    case AddUserScript => "addUserScript"
    case RemoveUserScript => "removeUserScript"
    case RemoveUserScriptsByGroupName => "removeUserScriptsByGroupName"
    case RemoveAllUserScripts => "removeAllUserScripts"
    case TakeScreenshot => "takeScreenshot"
    case Show => "show"
    case Hide => "hide"
    case Close => "close"
  }

  /** The number of names HandleMethodCall tests. */
  const MethodCount := 25

  /** The method whose name HandleMethodCall tests at position i of its chain. */
  function TestedAt(i: nat): MethodId
    requires i < MethodCount
  {
    match i
    case 0 => GetUrl
    case 1 => GetTitle
    case 2 => LoadUrl
    case 3 => LoadFile
    case 4 => LoadData
    case 5 => Reload
    case 6 => GoBack
    case 7 => CanGoBack
    case 8 => GoForward
    case 9 => CanGoForward
    case 10 => GoBackOrForward
    case 11 => CanGoBackOrForward
    case 12 => IsLoading
    case 13 => StopLoading
    case 14 => EvaluateJavascript
    case 15 => CallAsyncJavaScript
    case 16 => GetCopyBackForwardList
    case 17 => AddUserScript
    case 18 => RemoveUserScript
    case 19 => RemoveUserScriptsByGroupName
    case 20 => RemoveAllUserScripts
    case 21 => TakeScreenshot
    case 22 => Show
    case 23 => Hide
    case _ => Close
  }

  /** The position of a method's test in the chain. */
  function IndexOf(m: MethodId): (i: nat)
    ensures i < MethodCount && TestedAt(i) == m
  {
    match m
    case GetUrl => 0
    case GetTitle => 1
    case LoadUrl => 2
    case LoadFile => 3
    case LoadData => 4
    case Reload => 5
    case GoBack => 6
    case CanGoBack => 7
    case GoForward => 8
    case CanGoForward => 9
    case GoBackOrForward => 10
    case CanGoBackOrForward => 11
    case IsLoading => 12
    case StopLoading => 13
    case EvaluateJavascript => 14
    case CallAsyncJavaScript => 15
    case GetCopyBackForwardList => 16
    case AddUserScript => 17
    case RemoveUserScript => 18
    case RemoveUserScriptsByGroupName => 19
    case RemoveAllUserScripts => 20
    case TakeScreenshot => 21
    case Show => 22
    case Hide => 23
    case Close => 24
  }

  /** The chain of name tests from position i on: the first method whose wire
      name equals the given name, if any. */
  function LookupFrom(name: string, i: nat): Option<MethodId>
    requires i <= MethodCount
    decreases MethodCount - i
  {
    if i == MethodCount then None
    else if name == WireName(TestedAt(i)) then Some(TestedAt(i))
    else LookupFrom(name, i + 1)
  }

  /** The method a name selects, if any. */
  function Lookup(name: string): Option<MethodId>
  {
    LookupFrom(name, 0)
  }

  /** How a method replies: at once with true after invoking an operation, at
      once with a value the webview reports, or later from a continuation. */
  datatype CallStyle = Command | Query | Async

  function StyleOf(m: MethodId): CallStyle
  {
    match m
    case GetUrl | GetTitle | CanGoBack | CanGoForward | IsLoading => Query
    case CanGoBackOrForward | EvaluateJavascript | CallAsyncJavaScript
      | GetCopyBackForwardList | TakeScreenshot => Async
    case _ => Command
  }

  /** The methods that exist only while an InAppBrowser embeds the webview. */
  predicate NeedsBrowser(m: MethodId)
  {
    m == Show || m == Hide || m == Close
  }

  predicate MapArg(args: map<string, Value>, key: string)
  {
    key in args && args[key].Map?
  }

  predicate StringArg(args: map<string, Value>, key: string)
  {
    key in args && args[key].Str?
  }

  predicate IntArg(args: map<string, Value>, key: string)
  {
    key in args && args[key].I32?
  }

  /** The required arguments each method reads with get_fl_map_value, and the
      shape it reads them as. */
  predicate HasRequiredArguments(m: MethodId, args: map<string, Value>)
  {
    match m
    case LoadUrl => MapArg(args, "urlRequest")
    case LoadFile => StringArg(args, "assetFilePath")
    case LoadData => StringArg(args, "data")
    case GoBackOrForward | CanGoBackOrForward => IntArg(args, "steps")
    case EvaluateJavascript => StringArg(args, "source")
    case CallAsyncJavaScript => StringArg(args, "functionBody") && StringArg(args, "arguments")
    case AddUserScript => MapArg(args, "userScript")
    case RemoveUserScript => IntArg(args, "index") && MapArg(args, "userScript")
    case RemoveUserScriptsByGroupName => StringArg(args, "groupName")
    case _ => true
  }

  /** What a live webview's dispatch demands of a call: the arguments are a map
      and the selected method's required arguments are there with their shapes. */
  predicate WellFormed(call: MethodCall)
  {
    && call.arguments.Map?
    && (Lookup(call.methodName).Some? ==>
          HasRequiredArguments(Lookup(call.methodName).value, call.arguments.entries))
  }

  /** An optional map argument, read with get_optional_fl_map_value. */
  function OptionalMapArg(args: map<string, Value>, key: string): Option<map<string, Value>>
  {
    if MapArg(args, key) then Some(args[key].entries) else None
  }

  /** The isolation world of a script call: the page world unless one is given. */
  function WorldArgument(args: map<string, Value>): T.ContentWorld
  {
    match OptionalMapArg(args, "contentWorld")
    case None => T.PageWorld
    case Some(w) => T.WorldFromMap(w)
  }

  /** A reply sent during dispatch, or a continuation that will send it. */
  datatype Outcome = Replied(reply: Reply) | Deferred(continuation: Continuation)

  /** Everything one dispatch does. */
  datatype Step = Step(outcome: Outcome, webViewCalls: seq<T.WebViewCall>, browserCalls: seq<T.BrowserCall>)

  /** The reply to a call on a delegate whose webview is gone. */
  const Inert: Step := Step(Replied(Success(None)), [], [])

  const Unimplemented: Step := Step(Replied(NotImplemented), [], [])

  function Done(c: T.WebViewCall): Step
  {
    Step(Replied(Success(Some(Bool(true)))), [c], [])
  }

  function Answer(c: T.WebViewCall, v: Value): Step
  {
    Step(Replied(Success(Some(v))), [c], [])
  }

  function Later(c: T.WebViewCall, k: Continuation): Step
  {
    Step(Deferred(k), [c], [])
  }

  function BrowserDone(c: T.BrowserCall): Step
  {
    Step(Replied(Success(Some(Bool(true)))), [], [c])
  }

  /** The branch of a method of the table, on a live webview. */
  function Handle(m: MethodId, args: map<string, Value>, t: T.TargetView): Step
    requires HasRequiredArguments(m, args)
  {
    match m
    case GetUrl => Answer(T.GetUrl, OptionalString(t.url))
    // As written: getTitle asks the webview for its URL.
    case GetTitle => Answer(T.GetUrl, OptionalString(t.url))
    case LoadUrl => Done(T.LoadUrl(args["urlRequest"].entries))
    case LoadFile => Done(T.LoadFile(args["assetFilePath"].s))
    case LoadData => Done(T.LoadData(args["data"].s))
    case Reload => Done(T.Reload)
    case GoBack => Done(T.GoBack)
    case CanGoBack => Answer(T.CanGoBack, Bool(t.canGoBack))
    case GoForward => Done(T.GoForward)
    case CanGoForward => Answer(T.CanGoForward, Bool(t.canGoForward))
    case GoBackOrForward => Done(T.GoBackOrForward(args["steps"].i))
    case CanGoBackOrForward => Later(T.CanGoBackOrForward(args["steps"].i), ReplyWithBool)
    case IsLoading => Answer(T.IsLoading, Bool(t.isLoading))
    case StopLoading => Done(T.StopLoading)
    case EvaluateJavascript =>
      Later(T.EvaluateJavascript(args["source"].s, WorldArgument(args)), ReplyWithString)
    case CallAsyncJavaScript =>
      Later(T.CallAsyncJavaScript(args["functionBody"].s, args["arguments"].s, WorldArgument(args)),
            ReplyWithString)
    case GetCopyBackForwardList => Later(T.GetCopyBackForwardList, ReplyWithHistory)
    case AddUserScript => Done(T.AddUserScript(args["userScript"].entries))
    case RemoveUserScript => Done(T.RemoveUserScript(args["index"].i, args["userScript"].entries))
    case RemoveUserScriptsByGroupName => Done(T.RemoveUserScriptsByGroupName(args["groupName"].s))
    case RemoveAllUserScripts => Done(T.RemoveAllUserScripts)
    case TakeScreenshot =>
      Later(T.TakeScreenshot(OptionalMapArg(args, "screenshotConfiguration")), ReplyWithScreenshot)
    case Show => BrowserDone(T.Show)
    case Hide => BrowserDone(T.Hide)
    case Close => BrowserDone(T.Close)
  }

  /** The dispatch of one inbound call, given what the delegate sees of its
      webview (None once the webview reference is cleared). */
  function Dispatch(call: MethodCall, target: Option<T.TargetView>): (s: Step)
    requires target.Some? ==> WellFormed(call)
    // A call on a gone webview is answered with an empty success and touches nothing.
    ensures target.None? ==> s == Inert
    // A name outside the table, or a browser method without a browser, is not implemented.
    ensures target.Some? && Lookup(call.methodName).None? ==> s == Unimplemented
    ensures (target.Some? && Lookup(call.methodName).Some? && NeedsBrowser(Lookup(call.methodName).value)
             && !target.value.browserAttached) ==> s == Unimplemented
    // A recognised call on a live webview runs that method's branch of the table.
    ensures (target.Some? && Lookup(call.methodName).Some?
             && !(NeedsBrowser(Lookup(call.methodName).value) && !target.value.browserAttached)) ==>
              s == Handle(Lookup(call.methodName).value, call.arguments.entries, target.value)
    // At most one operation is invoked, and the browser only when there is one.
    ensures |s.webViewCalls| + |s.browserCalls| <= 1
    ensures (target.None? || !target.value.browserAttached) ==> s.browserCalls == []
    // The reply is deferred exactly for the asynchronous methods.
    ensures s.outcome.Deferred? <==>
              target.Some? && Lookup(call.methodName).Some? && StyleOf(Lookup(call.methodName).value) == Async
  {
    match target
    case None => Inert
    case Some(t) =>
      match Lookup(call.methodName)
      case None => Unimplemented
      case Some(m) =>
        if NeedsBrowser(m) && !t.browserAttached then Unimplemented
        else Handle(m, call.arguments.entries, t)
  }

  /** A name the chain from position i maps to a method is that method's wire name. */
  lemma {:induction false} LookupFromOnlyWireNames(name: string, i: nat)
    requires i <= MethodCount
    ensures LookupFrom(name, i).Some? ==> name == WireName(LookupFrom(name, i).value)
    decreases MethodCount - i
  {
    if i < MethodCount && name != WireName(TestedAt(i)) {
      LookupFromOnlyWireNames(name, i + 1);
    }
  }

  /** Lookup recognises nothing but the wire names: a name it maps to a method
      is that method's wire name. */
  lemma LookupOnlyWireNames(name: string)
    ensures Lookup(name).Some? ==> name == WireName(Lookup(name).value)
  {
    LookupFromOnlyWireNames(name, 0);
  }

  /** The chain reaches a method's own test when every test before it fails. */
  lemma {:induction false} FoundFrom(m: MethodId, i: nat)
    requires i <= IndexOf(m)
    requires forall j :: i <= j < IndexOf(m) ==> WireName(TestedAt(j)) != WireName(m)
    ensures LookupFrom(WireName(m), i) == Some(m)
    decreases IndexOf(m) - i
  {
    if i < IndexOf(m) {
      FoundFrom(m, i + 1);
    }
  }

  /** Every method is reached by its own wire name: the chain of tests in
      Lookup never stops early at another method's name. */
  lemma LookupFindsWireName(m: MethodId)
    ensures Lookup(WireName(m)) == Some(m)
  {
    if m.GetUrl? || m.GetTitle? || m.LoadUrl? || m.LoadFile? || m.LoadData? {
      EarlierTestsDifferForLoadNames(m);
    } else if m.Reload? || m.GoBack? || m.CanGoBack? || m.GoForward? || m.CanGoForward? {
      EarlierTestsDifferForHistoryNames(m);
    } else if m.GoBackOrForward? || m.CanGoBackOrForward? || m.IsLoading? || m.StopLoading? {
      EarlierTestsDifferForStepNames(m);
    } else if m.EvaluateJavascript? || m.CallAsyncJavaScript? || m.GetCopyBackForwardList? {
      EarlierTestsDifferForEvaluationNames(m);
    } else if m.AddUserScript? || m.RemoveUserScript? {
      EarlierTestsDifferForUserScriptNames(m);
    } else if m.RemoveUserScriptsByGroupName? || m.RemoveAllUserScripts? {
      EarlierTestsDifferForBulkRemovalNames(m);
    } else if m.TakeScreenshot? || m.Show? {
      EarlierTestsDifferForScreenshotAndShowNames(m);
    } else {
      EarlierTestsDifferForHideAndCloseNames(m);
    }
    FoundFrom(m, 0);
  }

  /** The names tested before the page-state queries and the load operations differ from theirs. */
  lemma EarlierTestsDifferForLoadNames(m: MethodId)
    requires m.GetUrl? || m.GetTitle? || m.LoadUrl? || m.LoadFile? || m.LoadData?
    ensures forall j :: 0 <= j < IndexOf(m) ==> WireName(TestedAt(j)) != WireName(m)
  {
  }

  /** The names tested before reload and the history operations differ from theirs. */
  lemma EarlierTestsDifferForHistoryNames(m: MethodId)
    requires m.Reload? || m.GoBack? || m.CanGoBack? || m.GoForward? || m.CanGoForward?
    ensures forall j :: 0 <= j < IndexOf(m) ==> WireName(TestedAt(j)) != WireName(m)
  {
  }

  /** The names tested before the step operations and the loading state differ from theirs. */
  lemma EarlierTestsDifferForStepNames(m: MethodId)
    requires m.GoBackOrForward? || m.CanGoBackOrForward? || m.IsLoading? || m.StopLoading?
    ensures forall j :: 0 <= j < IndexOf(m) ==> WireName(TestedAt(j)) != WireName(m)
  {
  }

  /** The names tested before script evaluation and the history list differ from theirs. */
  lemma EarlierTestsDifferForEvaluationNames(m: MethodId)
    requires m.EvaluateJavascript? || m.CallAsyncJavaScript? || m.GetCopyBackForwardList?
    ensures forall j :: 0 <= j < IndexOf(m) ==> WireName(TestedAt(j)) != WireName(m)
  {
  }

  /** The names tested before adding and removing one user script differ from theirs. */
  lemma EarlierTestsDifferForUserScriptNames(m: MethodId)
    requires m.AddUserScript? || m.RemoveUserScript?
    ensures forall j :: 0 <= j < IndexOf(m) ==> WireName(TestedAt(j)) != WireName(m)
  {
  }

  /** The names tested before removing user scripts by group and all of them differ from theirs. */
  lemma EarlierTestsDifferForBulkRemovalNames(m: MethodId)
    requires m.RemoveUserScriptsByGroupName? || m.RemoveAllUserScripts?
    ensures forall j :: 0 <= j < IndexOf(m) ==> WireName(TestedAt(j)) != WireName(m)
  {
  }

  /** The names tested before the screenshot and showing the browser differ from theirs. */
  lemma EarlierTestsDifferForScreenshotAndShowNames(m: MethodId)
    requires m.TakeScreenshot? || m.Show?
    ensures forall j :: 0 <= j < IndexOf(m) ==> WireName(TestedAt(j)) != WireName(m)
  {
  }

  /** The names tested before hiding and closing the browser differ from theirs. */
  lemma EarlierTestsDifferForHideAndCloseNames(m: MethodId)
    requires m.Hide? || m.Close?
    ensures forall j :: 0 <= j < IndexOf(m) ==> WireName(TestedAt(j)) != WireName(m)
  {
  }

  /** A name that is no method's wire name is not implemented, and the call
      invokes nothing. */
  lemma UnknownNamesAreNotImplemented(call: MethodCall, t: T.TargetView)
    requires WellFormed(call)
    requires forall m :: call.methodName != WireName(m)
    ensures Dispatch(call, Some(t)) == Unimplemented
  {
    LookupOnlyWireNames(call.methodName);
  }

  /** A command-style method invokes its one operation and replies true; a
      browser method invokes it on the browser, any other on the webview. */
  lemma CommandsInvokeOneOperation(call: MethodCall, t: T.TargetView, m: MethodId)
    requires WellFormed(call) && Lookup(call.methodName) == Some(m)
    requires StyleOf(m) == Command && (NeedsBrowser(m) ==> t.browserAttached)
    ensures var s := Dispatch(call, Some(t));
      && s.outcome == Replied(Success(Some(Bool(true))))
      && |s.webViewCalls| + |s.browserCalls| == 1
      && (|s.browserCalls| == 1 <==> NeedsBrowser(m))
      && (s.webViewCalls != [] ==> T.OpName(s.webViewCalls[0]) == WireName(m))
      && (s.browserCalls != [] ==> T.BrowserOpName(s.browserCalls[0]) == WireName(m))
  {
    EachMethodInvokesItsNamesake(m, call.arguments.entries, t);
  }

  /** What a step does for method m: exactly one operation, invoked on the
      browser for show, hide and close and on the webview otherwise, and it is
      the member function of m's own name, except that getTitle invokes getUrl. */
  predicate InvokesNamesake(m: MethodId, s: Step)
  {
    && |s.webViewCalls| + |s.browserCalls| == 1
    && (s.browserCalls != [] <==> NeedsBrowser(m))
    && (s.webViewCalls != [] && m != GetTitle ==> T.OpName(s.webViewCalls[0]) == WireName(m))
    && (m == GetTitle ==> s.webViewCalls == [T.GetUrl] && T.OpName(s.webViewCalls[0]) != WireName(m))
    && (s.browserCalls != [] ==> T.BrowserOpName(s.browserCalls[0]) == WireName(m))
  }

  /** Each method invokes its namesake member function, getTitle being the one
      exception as written. */
  lemma EachMethodInvokesItsNamesake(m: MethodId, args: map<string, Value>, t: T.TargetView)
    requires HasRequiredArguments(m, args)
    ensures InvokesNamesake(m, Handle(m, args, t))
  {
    if IndexOf(m) < 5 {
      NamesakesOfFirstGroup(m, args, t);
    } else if IndexOf(m) < 10 {
      NamesakesOfSecondGroup(m, args, t);
    } else if IndexOf(m) < 14 {
      NamesakesOfThirdGroup(m, args, t);
    } else if IndexOf(m) < 17 {
      NamesakesOfFourthGroup(m, args, t);
    } else if IndexOf(m) < 20 {
      NamesakesOfFifthGroup(m, args, t);
    } else {
      NamesakesOfSixthGroup(m, args, t);
    }
  }

  /** The namesakes of the page-state queries and the load operations. */
  lemma NamesakesOfFirstGroup(m: MethodId, args: map<string, Value>, t: T.TargetView)
    requires HasRequiredArguments(m, args) && IndexOf(m) < 5
    ensures InvokesNamesake(m, Handle(m, args, t))
  {
  }

  /** The namesakes of reload and the history operations. */
  lemma NamesakesOfSecondGroup(m: MethodId, args: map<string, Value>, t: T.TargetView)
    requires HasRequiredArguments(m, args) && 5 <= IndexOf(m) < 10
    ensures InvokesNamesake(m, Handle(m, args, t))
  {
  }

  /** The namesakes of the step operations and the loading state. */
  lemma NamesakesOfThirdGroup(m: MethodId, args: map<string, Value>, t: T.TargetView)
    requires HasRequiredArguments(m, args) && 10 <= IndexOf(m) < 14
    ensures InvokesNamesake(m, Handle(m, args, t))
  {
  }

  /** The namesakes of script evaluation and the history list. */
  lemma NamesakesOfFourthGroup(m: MethodId, args: map<string, Value>, t: T.TargetView)
    requires HasRequiredArguments(m, args) && 14 <= IndexOf(m) < 17
    ensures InvokesNamesake(m, Handle(m, args, t))
  {
  }

  /** The namesakes of adding and removing user scripts. */
  lemma NamesakesOfFifthGroup(m: MethodId, args: map<string, Value>, t: T.TargetView)
    requires HasRequiredArguments(m, args) && 17 <= IndexOf(m) < 20
    ensures InvokesNamesake(m, Handle(m, args, t))
  {
  }

  /** The namesakes of removing all user scripts, the screenshot and the browser methods. */
  lemma NamesakesOfSixthGroup(m: MethodId, args: map<string, Value>, t: T.TargetView)
    requires HasRequiredArguments(m, args) && 20 <= IndexOf(m)
    ensures InvokesNamesake(m, Handle(m, args, t))
  {
  }

  /** takeScreenshot hands the webview the screenshotConfiguration map when the
      call carries one, and no configuration otherwise. */
  lemma ScreenshotConfigurationIsOptional(call: MethodCall, t: T.TargetView)
    requires WellFormed(call) && Lookup(call.methodName) == Some(TakeScreenshot)
    ensures var s := Dispatch(call, Some(t));
      && s.webViewCalls == [T.TakeScreenshot(OptionalMapArg(call.arguments.entries, "screenshotConfiguration"))]
      && (!MapArg(call.arguments.entries, "screenshotConfiguration") ==>
            s.webViewCalls == [T.TakeScreenshot(None)])
      && (MapArg(call.arguments.entries, "screenshotConfiguration") ==>
            s.webViewCalls == [T.TakeScreenshot(Some(call.arguments.entries["screenshotConfiguration"].entries))])
  {
  }

  /** The query methods reply at once with what the webview currently reports. */
  lemma QueriesReportCurrentState(call: MethodCall, t: T.TargetView, m: MethodId)
    requires WellFormed(call) && Lookup(call.methodName) == Some(m)
    requires m in {GetUrl, CanGoBack, CanGoForward, IsLoading}
    ensures var s := Dispatch(call, Some(t));
      && s.browserCalls == []
      && (m == GetUrl ==>
            s.webViewCalls == [T.GetUrl] && s.outcome == Replied(Success(Some(OptionalString(t.url)))))
      && (m == CanGoBack ==>
            s.webViewCalls == [T.CanGoBack] && s.outcome == Replied(Success(Some(Bool(t.canGoBack)))))
      && (m == CanGoForward ==>
            s.webViewCalls == [T.CanGoForward] && s.outcome == Replied(Success(Some(Bool(t.canGoForward)))))
      && (m == IsLoading ==>
            s.webViewCalls == [T.IsLoading] && s.outcome == Replied(Success(Some(Bool(t.isLoading)))))
  {
  }

  /** The values a recorded webview call received, as encodable values. */
  function CallArguments(c: T.WebViewCall): seq<Value>
  {
    match c
    case LoadUrl(r) => [Map(r)]
    case LoadFile(p) => [Str(p)]
    case LoadData(d) => [Str(d)]
    case GoBackOrForward(n) => [I32(n)]
    case CanGoBackOrForward(n) => [I32(n)]
    case EvaluateJavascript(src, _) => [Str(src)]
    case CallAsyncJavaScript(body, a, _) => [Str(body), Str(a)]
    case AddUserScript(u) => [Map(u)]
    case RemoveUserScript(i, u) => [I32(i), Map(u)]
    case RemoveUserScriptsByGroupName(g) => [Str(g)]
    case _ => []
  }

  /** The argument keys each method is documented to read, in order. */
  function DocumentedKeys(m: MethodId): seq<string>
  {
    match m
    case LoadUrl => ["urlRequest"]
    case LoadFile => ["assetFilePath"]
    case LoadData => ["data"]
    case GoBackOrForward | CanGoBackOrForward => ["steps"]
    case EvaluateJavascript => ["source"]
    case CallAsyncJavaScript => ["functionBody", "arguments"]
    case AddUserScript => ["userScript"]
    case RemoveUserScript => ["index", "userScript"]
    case RemoveUserScriptsByGroupName => ["groupName"]
    case _ => []
  }

  function ValuesAt(args: map<string, Value>, keys: seq<string>): seq<Value>
    requires forall i :: 0 <= i < |keys| ==> keys[i] in args
  {
    if keys == [] then [] else [args[keys[0]]] + ValuesAt(args, keys[1..])
  }

  /** The operation a method invokes receives exactly the values found under
      that method's documented argument keys. */
  lemma ArgumentsComeFromDocumentedKeys(m: MethodId, args: map<string, Value>, t: T.TargetView)
    requires HasRequiredArguments(m, args) && !NeedsBrowser(m)
    ensures forall i :: 0 <= i < |DocumentedKeys(m)| ==> DocumentedKeys(m)[i] in args
    ensures var s := Handle(m, args, t);
      |s.webViewCalls| == 1 && CallArguments(s.webViewCalls[0]) == ValuesAt(args, DocumentedKeys(m))
  {
    var keys := DocumentedKeys(m);
    if |keys| == 2 {
      assert keys[1..][1..] == [];
      assert ValuesAt(args, keys[1..]) == [args[keys[1]]];
      assert ValuesAt(args, keys) == [args[keys[0]], args[keys[1]]];
    } else if |keys| == 1 {
      assert ValuesAt(args, keys) == [args[keys[0]]];
    } else {
      assert ValuesAt(args, keys) == [];
    }
  }

  /** Script evaluation runs in the page world unless the call names a world. */
  lemma ScriptsDefaultToPageWorld(call: MethodCall, t: T.TargetView, m: MethodId)
    requires WellFormed(call) && Lookup(call.methodName) == Some(m)
    requires m == EvaluateJavascript || m == CallAsyncJavaScript
    ensures var s := Dispatch(call, Some(t));
      && |s.webViewCalls| == 1
      && (s.webViewCalls[0].EvaluateJavascript? || s.webViewCalls[0].CallAsyncJavaScript?)
      && (!MapArg(call.arguments.entries, "contentWorld") ==> s.webViewCalls[0].world == T.PageWorld)
      && (MapArg(call.arguments.entries, "contentWorld") ==>
            s.webViewCalls[0].world == T.WorldFromMap(call.arguments.entries["contentWorld"].entries))
  {
  }

  /** An asynchronous method sends no reply while dispatching: it invokes its
      one webview operation and registers the continuation that fits the
      value that operation produces. */
  lemma AsyncMethodsDeferTheirReply(call: MethodCall, t: T.TargetView, m: MethodId)
    requires WellFormed(call) && Lookup(call.methodName) == Some(m) && StyleOf(m) == Async
    ensures var s := Dispatch(call, Some(t));
      && s.outcome.Deferred? && |s.webViewCalls| == 1 && s.browserCalls == []
      && (s.outcome.continuation == ReplyWithBool <==> m == CanGoBackOrForward)
      && (s.outcome.continuation == ReplyWithString <==> m == EvaluateJavascript || m == CallAsyncJavaScript)
      && (s.outcome.continuation == ReplyWithHistory <==> m == GetCopyBackForwardList)
      && (s.outcome.continuation == ReplyWithScreenshot <==> m == TakeScreenshot)
  {
  }

  /** As written, getTitle replies with the URL: on a page whose title differs
      from its URL the reply is not the title. */
  lemma GetTitleRepliesWithUrl()
    ensures var t := T.TargetView(Some("https://example.com"), Some("Example"), false, false, false, false);
      && Dispatch(MethodCall("getTitle", Map(map[])), Some(t)).outcome
           == Replied(Success(Some(Str("https://example.com"))))
      && Dispatch(MethodCall("getTitle", Map(map[])), Some(t)).outcome
           != Replied(Success(Some(OptionalString(t.title))))
  {
  }

  /** As written, getTitle is dispatched exactly like getUrl: same invoked
      operation, same reply, whatever the arguments and the page. */
  lemma GetTitleIsGetUrl(a: map<string, Value>, t: T.TargetView)
    ensures Dispatch(MethodCall("getTitle", Map(a)), Some(t)) == Dispatch(MethodCall("getUrl", Map(a)), Some(t))
  {
  }

  /** The dispatch as evidently intended: getTitle asks the webview for its
      title; every other call is dispatched as written. */
  function IntendedDispatch(call: MethodCall, target: Option<T.TargetView>): (s: Step)
    requires target.Some? ==> WellFormed(call)
    ensures target.Some? && Lookup(call.methodName) == Some(GetTitle) ==>
              s == Step(Replied(Success(Some(OptionalString(target.value.title)))), [T.GetTitle], [])
    ensures target.Some? && Lookup(call.methodName) == Some(GetTitle) ==>
              StringOrNull(s.outcome.reply.value.value) == Some(target.value.title)
    ensures target.None? || Lookup(call.methodName) != Some(GetTitle) ==> s == Dispatch(call, target)
  {
    if target.Some? && Lookup(call.methodName) == Some(GetTitle) then
      Step(Replied(Success(Some(OptionalString(target.value.title)))), [T.GetTitle], [])
    else Dispatch(call, target)
  }

  /** The life of a binding as the channel sees it: inbound calls, each with the
      state of the webview when it arrives, and the delegate's teardown. */
  datatype BindingEvent = Request(call: MethodCall, state: T.TargetView) | TearDown

  function CountRequests(events: seq<BindingEvent>): nat
    decreases |events|
  {
    if events == [] then 0
    else (if events[0].Request? then 1 else 0) + CountRequests(events[1..])
  }

  /** While the webview is live every call must be well-formed; after teardown
      any call may arrive. */
  predicate Admissible(live: bool, events: seq<BindingEvent>)
    decreases |events|
  {
    events == [] ||
    match events[0]
    case TearDown => Admissible(false, events[1..])
    case Request(c, _) => (live ==> WellFormed(c)) && Admissible(live, events[1..])
  }

  /** The dispatches of a binding's life, in arrival order: one step per request,
      and none but the inert one once the binding is torn down. */
  function Run(live: bool, events: seq<BindingEvent>): (steps: seq<Step>)
    requires Admissible(live, events)
    ensures |steps| == CountRequests(events)
    ensures !live ==> forall i :: 0 <= i < |steps| ==> steps[i] == Inert
    decreases |events|
  {
    if events == [] then []
    else
      match events[0]
      case TearDown => Run(false, events[1..])
      case Request(c, state) => [Dispatch(c, if live then Some(state) else None)] + Run(live, events[1..])
  }

  /** Teardown is terminal: every request that arrives after it gets the inert
      reply and invokes nothing, whatever it asks for. */
  lemma {:induction false} NothingRunsAfterTearDown(live: bool, events: seq<BindingEvent>, k: nat)
    requires Admissible(live, events)
    requires k < |events| && events[k].TearDown?
    ensures forall i :: CountRequests(events[..k]) <= i < |Run(live, events)| ==> Run(live, events)[i] == Inert
  {
    if k == 0 {
      assert events[..0] == [];
    } else {
      var rest := events[1..];
      assert events[..k][1..] == rest[..k - 1];
      var live' := if events[0].TearDown? then false else live;
      NothingRunsAfterTearDown(live', rest, k - 1);
    }
  }
}
