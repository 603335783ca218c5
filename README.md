# WebViewChannelDelegate — a verified model

This project models the Windows `WebViewChannelDelegate` of flutter_inappwebview.
The delegate is the binding between one `InAppWebView` and its Flutter method
channel, and it has three jobs:

- It answers the host's method calls (`HandleMethodCall`). The reply comes at
  once, or it is deferred into a continuation that the webview completes later.
- It forwards the webview's events to the host (`onLoadStart` …
  `onConsoleMessage`).
- On destruction it forgets its webview.

The webview, the optional `InAppBrowser` around it and the channel are treated
as black boxes. The model records which of their operations were invoked, with
which arguments, and what was sent to the host.

Modules, one file each:

- `Values`: Flutter's `EncodableValue` (null, bool, 32- and 64-bit ints,
  strings, lists, string-keyed maps) and how an optional string or bool is
  encoded (`make_fl_value`).
- `Callbacks`: the two `decodeResult` lambdas, as pure functions.
- `Target`: the collaborators. These are the `InAppWebView` (query state, plus
  a log of invoked operations) and the `InAppBrowser` (a log of invoked
  operations).
- `Replies`: the one-shot `MethodResult` sink (`ReplySink`), and the completion
  lambda that owns it after an asynchronous call (`PendingReply`).
- `Dispatcher`: the dispatch table as a pure specification. It has these parts:
  - `Lookup` is the chain of name tests, in the source's order.
  - `Handle` is the branch of each method.
  - `Dispatch` covers the whole call, including the null-webview path.
  - `Run` follows a binding's life including its teardown.
  - It also holds the lemmas about these.
- `Events`: the invocation each event is sent as, and a host-side decoder that
  serves as its inverse.
- `ChannelDelegate`: the class `WebViewChannelDelegate`. It holds the
  `webView` field, the channel's presence and the sequence of sent
  invocations. Its methods are `HandleMethodCall`, the emitters and `Dispose`
  (the destructor). `HandleMethodCall` is proved against `Dispatcher.Dispatch`.
- `Scenarios`: concrete runs of the class. Each builds a webview and a
  delegate, feeds in one call or event, and pins down the reply and the
  recorded calls.

The source tests the method name against literal strings, one after another.
The model computes that test once, as `Dispatcher.Lookup`. `TestedAt` lists the
25 methods in the order the source tests their names, and `LookupFrom` returns
the first method in that list whose name matches. `HandleMethodCall` then branches on the
method found. The 22 branches the webview carries out sit in
`InvokeOnWebView`; the three browser branches and the fallback stay in
`HandleMethodCall`. The name tests have no side effects, so the replies and the
invoked operations are exactly those of the source's chain.

## Model

| member | source | states |
|---|---|---|
| Callbacks.DecodeNavigationPolicy | flutter_inappwebview_windows/windows/in_app_webview/webview_channel_delegate.cpp:23-30 | An absent or null answer cancels the navigation. An int answer is the policy with that ordinal, and allow results exactly from the int 1. Every policy the host encodes as its ordinal is decoded back to that policy. Any other answer is the bad_variant_access that std::get throws. |
| Callbacks.DecodeJsHandlerResult | flutter_inappwebview_windows/windows/in_app_webview/webview_channel_delegate.cpp:35-38 | The JavaScript-handler answer is handed on unchanged. An absent answer and an explicit null stay distinct. |
| Values.OptionalString | flutter_inappwebview_windows/windows/in_app_webview/webview_channel_delegate.cpp:53 | An optional string is sent as a string or as null, and reading it back recovers the optional. |
| Values.OptionalBool | flutter_inappwebview_windows/windows/in_app_webview/webview_channel_delegate.cpp:274 | An optional bool (isReload) is sent as a bool or as null, and reading it back with BoolOrNull recovers the optional. |
| Replies.ReplyAfterAttempts | flutter_inappwebview_windows/windows/in_app_webview/webview_channel_delegate.cpp:41-42 | The caller sees exactly the first reply attempted on a sink, whatever attempts follow. A sink never replied to shows nothing. |
| Replies.Resume | flutter_inappwebview_windows/windows/in_app_webview/webview_channel_delegate.cpp:100-170 | A continuation replies Success carrying a value, and the host reads that value back (ReadBack, by the continuation's value type) as exactly the bool, string, history map or optional screenshot data the webview gave it. |
| Replies.ResumeIsInjective | flutter_inappwebview_windows/windows/in_app_webview/webview_channel_delegate.cpp:100-170 | A continuation's reply determines the value the webview passed it: two different values never give the same reply. It follows from the read-back. |
| Replies.PendingReply.Complete | flutter_inappwebview_windows/windows/in_app_webview/webview_channel_delegate.cpp:100-103 | Completing a continuation delivers its reply on the sink it owns, under the one-shot rule. |
| Dispatcher.Dispatch | flutter_inappwebview_windows/windows/in_app_webview/webview_channel_delegate.cpp:41-188 | With no webview the result is Success() with no operation invoked. An unknown name, or show/hide/close without a browser, gets NotImplemented and leaves the browser alone. Any other call runs its own branch. At most one operation is invoked per call. The reply is deferred exactly for the asynchronous methods. |
| Dispatcher.LookupFindsWireName | flutter_inappwebview_windows/windows/in_app_webview/webview_channel_delegate.cpp:52-184 | Each of the 25 method names reaches its own branch: no earlier test captures another method's name. |
| Dispatcher.FoundFrom | flutter_inappwebview_windows/windows/in_app_webview/webview_channel_delegate.cpp:52-184 | Starting the chain at any position at or before a method's own test, its name reaches that method when every test in between fails. |
| Dispatcher.LookupFromOnlyWireNames | flutter_inappwebview_windows/windows/in_app_webview/webview_channel_delegate.cpp:52-184 | A name that the chain, started at any position, maps to a method is that method's wire name. |
| Dispatcher.LookupOnlyWireNames | flutter_inappwebview_windows/windows/in_app_webview/webview_channel_delegate.cpp:52-184 | The converse of LookupFindsWireName: Lookup recognises nothing but the 25 wire names, and a recognised name is the wire name of the method found. |
| Dispatcher.UnknownNamesAreNotImplemented | flutter_inappwebview_windows/windows/in_app_webview/webview_channel_delegate.cpp:185-187 | A call on a live webview whose name is none of the 25 method names gets NotImplemented and invokes no operation on the webview or the browser. |
| Dispatcher.CommandsInvokeOneOperation | flutter_inappwebview_windows/windows/in_app_webview/webview_channel_delegate.cpp:58-184 | A command method invokes exactly one operation, the member function of its own name (reload invokes reload, hide invokes the browser's hide), and replies Success(true). The operation goes to the browser exactly for show, hide and close. |
| Dispatcher.EachMethodInvokesItsNamesake | flutter_inappwebview_windows/windows/in_app_webview/webview_channel_delegate.cpp:52-184 | Every method of the table invokes exactly one operation, on the browser exactly for show, hide and close, and it is the member function named like the method. The single exception is getTitle, which invokes getUrl (line 56). |
| Dispatcher.QueriesReportCurrentState | flutter_inappwebview_windows/windows/in_app_webview/webview_channel_delegate.cpp:52-107 | getUrl, canGoBack, canGoForward and isLoading reply at once with the value the webview reports. Each logs exactly its own query on the webview (getUrl logs getUrl, canGoBack logs canGoBack, and so on) and nothing on the browser. |
| Dispatcher.ArgumentsComeFromDocumentedKeys | flutter_inappwebview_windows/windows/in_app_webview/webview_channel_delegate.cpp:58-161 | The operation a webview method invokes receives exactly the values under that method's argument keys (urlRequest, assetFilePath, data, steps, source, functionBody/arguments, userScript, index/userScript, groupName), in order. |
| Dispatcher.AsyncMethodsDeferTheirReply | flutter_inappwebview_windows/windows/in_app_webview/webview_channel_delegate.cpp:96-171 | canGoBackOrForward, evaluateJavascript, callAsyncJavaScript, getCopyBackForwardList and takeScreenshot send no reply while dispatching. Each invokes one operation and registers the continuation for that operation's value type. |
| Dispatcher.ScriptsDefaultToPageWorld | flutter_inappwebview_windows/windows/in_app_webview/webview_channel_delegate.cpp:112-134 | Script evaluation runs in the page world unless the call carries a contentWorld map, in which case it runs in the world built from that map. |
| Dispatcher.ScreenshotConfigurationIsOptional | flutter_inappwebview_windows/windows/in_app_webview/webview_channel_delegate.cpp:162-167 | takeScreenshot hands the webview the screenshotConfiguration map when the call carries one under that key, and no configuration otherwise. |
| Dispatcher.GetTitleRepliesWithUrl | flutter_inappwebview_windows/windows/in_app_webview/webview_channel_delegate.cpp:55-57 | As written, getTitle on a page titled "Example" at https://example.com replies with the URL, not the title. |
| Dispatcher.GetTitleIsGetUrl | flutter_inappwebview_windows/windows/in_app_webview/webview_channel_delegate.cpp:52-57 | As written, getTitle is dispatched exactly as getUrl, for every argument map and every page state: the same reply and the same logged calls. |
| Dispatcher.IntendedDispatch | flutter_inappwebview_windows/windows/in_app_webview/webview_channel_delegate.cpp:55-57 | With getTitle corrected, it asks the webview for its title and replies with exactly that title. Every other call is dispatched as written. |
| Dispatcher.Run | flutter_inappwebview_windows/windows/in_app_webview/webview_channel_delegate.cpp:44-47 | A binding's life gives one dispatch per inbound call. Once the binding is torn down, every dispatch is the inert Success() that touches nothing. |
| Dispatcher.NothingRunsAfterTearDown | flutter_inappwebview_windows/windows/in_app_webview/webview_channel_delegate.cpp:305-309 | Teardown is terminal: every call that arrives after it gets the inert reply, whatever preceded the teardown. |
| Events.Encode | flutter_inappwebview_windows/windows/in_app_webview/webview_channel_delegate.cpp:190-303 | Each event is sent under its fixed name, with a payload map whose keys are exactly that event's keys. A callback is attached exactly for shouldOverrideUrlLoading and onCallJsHandler. |
| Events.DecodeEncode | flutter_inappwebview_windows/windows/in_app_webview/webview_channel_delegate.cpp:190-303 | The host recovers every event from the invocation it was sent as. |
| ChannelDelegate.WebViewChannelDelegate.constructor | flutter_inappwebview_windows/windows/in_app_webview/webview_channel_delegate.cpp:17-19 | A new delegate holds the given webview and has sent nothing. |
| ChannelDelegate.WebViewChannelDelegate.HandleMethodCall | flutter_inappwebview_windows/windows/in_app_webview/webview_channel_delegate.cpp:41-188 | A null webview gets Success() with nothing invoked. Otherwise the webview's and browser's call logs grow by exactly the operations Dispatch names, and the webview keeps its embedding browser. An unknown name, show, hide, close and the queries leave what the webview reports exactly as it was. A synchronous reply lands on the sink with no continuation. An asynchronous call leaves the sink empty and returns a fresh continuation of Dispatch's kind that owns the sink. |
| ChannelDelegate.WebViewChannelDelegate.InvokeOnWebView | flutter_inappwebview_windows/windows/in_app_webview/webview_channel_delegate.cpp:52-171 | The branch of a webview method adds exactly the call Handle names to the webview's log and replies or defers as Handle says. It never touches the browser, and a query leaves what the webview reports as it was. |
| ChannelDelegate.WebViewChannelDelegate.OnLoadStart | flutter_inappwebview_windows/windows/in_app_webview/webview_channel_delegate.cpp:190-200 | Without a channel nothing is sent. Otherwise exactly the onLoadStart invocation is appended. |
| ChannelDelegate.WebViewChannelDelegate.OnLoadStop | flutter_inappwebview_windows/windows/in_app_webview/webview_channel_delegate.cpp:202-212 | Without a channel nothing is sent. Otherwise exactly the onLoadStop invocation is appended. |
| ChannelDelegate.WebViewChannelDelegate.ShouldOverrideUrlLoading | flutter_inappwebview_windows/windows/in_app_webview/webview_channel_delegate.cpp:214-222 | Without a channel nothing is sent. Otherwise the navigation action's map is sent with the decision callback attached. |
| ChannelDelegate.WebViewChannelDelegate.OnReceivedError | flutter_inappwebview_windows/windows/in_app_webview/webview_channel_delegate.cpp:224-235 | Without a channel nothing is sent. Otherwise exactly the onReceivedError invocation {request, error} is appended. |
| ChannelDelegate.WebViewChannelDelegate.OnReceivedHttpError | flutter_inappwebview_windows/windows/in_app_webview/webview_channel_delegate.cpp:237-248 | Without a channel nothing is sent. Otherwise exactly the onReceivedHttpError invocation {request, errorResponse} is appended. |
| ChannelDelegate.WebViewChannelDelegate.OnTitleChanged | flutter_inappwebview_windows/windows/in_app_webview/webview_channel_delegate.cpp:250-264 | Without a channel nothing is sent and the browser is not told. Otherwise the onTitleChanged invocation is appended, and an attached browser receives didChangeTitle(title). |
| ChannelDelegate.WebViewChannelDelegate.OnUpdateVisitedHistory | flutter_inappwebview_windows/windows/in_app_webview/webview_channel_delegate.cpp:266-277 | Without a channel nothing is sent. Otherwise exactly the onUpdateVisitedHistory invocation {url, isReload} is appended. |
| ChannelDelegate.WebViewChannelDelegate.OnCallJsHandler | flutter_inappwebview_windows/windows/in_app_webview/webview_channel_delegate.cpp:279-290 | Without a channel nothing is sent. Otherwise {handlerName, args} is sent with the handler callback attached. |
| ChannelDelegate.WebViewChannelDelegate.OnConsoleMessage | flutter_inappwebview_windows/windows/in_app_webview/webview_channel_delegate.cpp:292-303 | Without a channel nothing is sent. Otherwise exactly the onConsoleMessage invocation {message, messageLevel} is appended. |
| ChannelDelegate.WebViewChannelDelegate.Dispose | flutter_inappwebview_windows/windows/in_app_webview/webview_channel_delegate.cpp:305-309 | The destructor leaves the delegate without a webview. |
| Scenarios.LoadUrlRepliesTrue | flutter_inappwebview_windows/windows/in_app_webview/webview_channel_delegate.cpp:58-62 | loadUrl with a request for https://example.com hands that request to the webview and replies Success(true). |
| Scenarios.StepsAreSyncButFeasibilityIsDeferred | flutter_inappwebview_windows/windows/in_app_webview/webview_channel_delegate.cpp:91-104 | goBackOrForward(2) replies true at once. canGoBackOrForward(2) leaves the sink empty until the webview answers, and an infeasible move is then answered false. |
| Scenarios.EvaluateDefaultsToPageWorld | flutter_inappwebview_windows/windows/in_app_webview/webview_channel_delegate.cpp:112-122 | evaluateJavascript("1+1") without a contentWorld runs in the page world, and the deferred reply is the string the webview produced. |
| Scenarios.ShowWithoutBrowserIsNotImplemented | flutter_inappwebview_windows/windows/in_app_webview/webview_channel_delegate.cpp:173-187 | show on a webview without a browser gets NotImplemented and invokes nothing on the webview. |
| Scenarios.ShowReachesBrowser | flutter_inappwebview_windows/windows/in_app_webview/webview_channel_delegate.cpp:173-176 | show on a webview inside a browser invokes the browser's show, only that, and replies Success(true). |
| Scenarios.TitleReachesBrowser | flutter_inappwebview_windows/windows/in_app_webview/webview_channel_delegate.cpp:250-264 | A title change sends onTitleChanged {title: "Example"} and then tells the browser. |
| Scenarios.NoChannelNoTitleFanOut | flutter_inappwebview_windows/windows/in_app_webview/webview_channel_delegate.cpp:252-254 | Without a channel a title change sends nothing and does not reach the browser. |
| Scenarios.CallAfterDispose | flutter_inappwebview_windows/windows/in_app_webview/webview_channel_delegate.cpp:44-47 | After the destructor, a call gets Success() and the webview records nothing. |

## Left out

- The real behaviour of InAppWebView, WebView2 and InAppBrowser (navigation, script execution, history, screenshots) is not modelled. Each collaborator only records the operations invoked on it, and the query operations report fields the model sets.
- The argument objects (URLRequest, UserScript, ContentWorld, ScreenshotConfiguration, NavigationAction, WebHistory, WebResourceRequest/Error/Response) and their toEncodableMap are not part of this model. Each is represented by the encodable map it is built from or sent as.
- get_fl_map_value and get_optional_fl_map_value are not part of this model. A required argument is read as the value of its type under its key. An optional map argument counts as present exactly when its key holds a map.
- Dispatcher.Dispatch and ChannelDelegate.WebViewChannelDelegate.HandleMethodCall require well-formed arguments on a live webview: a map, with each required key holding a value of the expected type. The code only reads them with std::get, which throws otherwise, and has no failure reply, so the failure is excluded rather than invented.
- The BinaryMessenger/MethodChannel transport, the channel-name construction at line 14 and the ChannelDelegate base class are not modelled. The channel's presence is a field. The messenger-only constructor at lines 13-15 differs from the named one only in how the name is built.
- shared_ptr/unique_ptr ownership, threading and debugLog are not modelled. Moving the sink into a continuation is modelled as the continuation holding the sink.
- Replies.ReplySink models the engine rule that only the first reply on a MethodResult counts. That rule belongs to the Flutter engine, not to this file.
- Callbacks.NavigationActionPolicy uses the ordinals cancel = 0 and allow = 1. The header that declares the enum is not part of this model. A policy is the int the host sent, as the static_cast makes it, including out-of-range ordinals.
- goBackOrForward replies Success(true) at once (lines 91-95). Only canGoBackOrForward defers its reply (lines 96-104).
- onTitleChanged returns at lines 252-254 when there is no channel, so the browser is told only when the event was sent.
- The code has no reply for invalid arguments; see the well-formedness line above.
- ChannelDelegate.WebViewChannelDelegate.Dispose and the emitters (OnLoadStart … OnConsoleMessage): Dispose clears only webView, as line 308 does. The channel belongs to the ChannelDelegate base class, which is not modelled. So after Dispose the emitters still send whenever channelPresent holds, and a PendingReply created before Dispose still delivers its reply. Whether the base class drops emits or stale callbacks after teardown is not captured.
- ChannelDelegate.WebViewChannelDelegate.HandleMethodCall: the webview is taken to run a continuation only after the dispatch has returned, so an asynchronous call always leaves the sink empty when HandleMethodCall returns. The delegate itself sends no reply at lines 100, 118, 130, 137 and 167, but nothing in this file stops the webview from running the lambda before returning.
- Values.Value leaves out EncodableValue's double, typed-list (uint8, int32, int64, float, double) and custom variants, and map keys that are not strings. The JavaScript-handler answer handed on at line 37 may be any of these. A navigation-policy answer of such a kind is, in the code as in the model, a bad_variant_access, like every answer that is neither null nor an int.
- Target.InAppWebView.Perform: what the webview reports after an operation (its url, whether it can go back or forward, whether it is loading) is left open, since a load, a reload or a history move changes it in the real webview. Only the call log and the embedding browser are stated.

## Findings

| source | as written | input that shows it | evidently intended | confidence | as-written member | corrected member |
|---|---|---|---|---|---|---|
| flutter_inappwebview_windows/windows/in_app_webview/webview_channel_delegate.cpp:55-57 | getTitle replies with webView->getUrl() | getTitle on a page titled "Example" at https://example.com replies "https://example.com" | reply with the page title (webView->getTitle()) | not executed; high, since the branch is a copy of the getUrl branch | Dispatcher.GetTitleRepliesWithUrl | Dispatcher.IntendedDispatch |
