/** WebViewChannelDelegate: the binding between one webview and its method
    channel. It answers the host's calls (HandleMethodCall), forwards the
    webview's events to the host, and on teardown forgets the webview. */
module ChannelDelegate {
  import opened Values
  import opened Replies
  import T = Target
  import D = Dispatcher
  import E = Events

  /** What an emitter sends: one invocation if the channel is there, else nothing. */
  function Emission(channelPresent: bool, e: E.Event): seq<E.OutboundMessage>
  {
    if channelPresent then [E.Encode(e)] else []
  }

  /** The browser that embeds a webview, if there is a webview and it is embedded. */
  function BrowserOf(webView: T.InAppWebView?): set<object>
    reads webView
  {
    if webView != null && webView.inAppBrowser != null then {webView.inAppBrowser} else {}
  }

  class WebViewChannelDelegate {
    var webView: T.InAppWebView?
    /** Whether the underlying method channel exists; it is owned by the
        ChannelDelegate base, which is not part of this model. */
    var channelPresent: bool
    /** Every invocation sent to the host, in order. */
    var sent: seq<E.OutboundMessage>

    constructor (webView: T.InAppWebView, channelPresent: bool)
      ensures this.webView == webView && this.channelPresent == channelPresent && sent == []
    {
      this.webView := webView;
      this.channelPresent := channelPresent;
      sent := [];
    }

    /** Answers one inbound call on the reply sink Flutter passes with it. A
        synchronous method replies before returning; an asynchronous one returns
        the continuation, holding the sink, that it handed to the webview. */
    method HandleMethodCall(call: D.MethodCall, result: ReplySink) returns (callback: PendingReply?)
      requires result.reply == None
      requires webView != null ==> D.WellFormed(call)
      modifies result, webView, BrowserOf(webView)
      ensures webView == null ==> result.reply == Some(Success(None)) && callback == null
      ensures webView != null ==>
        var s := D.Dispatch(call, Some(old(webView.View())));
        && webView.calls == old(webView.calls) + s.webViewCalls
        && webView.inAppBrowser == old(webView.inAppBrowser)
        && (webView.inAppBrowser != null ==>
              webView.inAppBrowser.calls == old(webView.inAppBrowser.calls) + s.browserCalls)
        && (s.outcome.Replied? ==> result.reply == Some(s.outcome.reply) && callback == null)
        && (s.outcome.Deferred? ==>
              && result.reply == None && callback != null && fresh(callback)
              && callback.kind == s.outcome.continuation && callback.sink == result)
      // An unknown name, a browser method and a query leave what the webview reports as it was.
      ensures webView != null
              && (D.Lookup(call.methodName).None? || D.NeedsBrowser(D.Lookup(call.methodName).value)
                  || D.StyleOf(D.Lookup(call.methodName).value) == D.Query) ==>
                webView.View() == old(webView.View())
    {
      callback := null;
      if webView == null {
        result.Success(None);
        return;
      }
      var id := D.Lookup(call.methodName);
      if id.None? {
        result.NotImplemented();
        return;
      }
      var m := id.value;
      var browser := webView.inAppBrowser;
      if !D.NeedsBrowser(m) {
        callback := InvokeOnWebView(m, call.arguments.entries, result);
      } else if browser != null && m == D.Show {
        browser.Perform(T.Show);
        result.Success(Some(Bool(true)));
      } else if browser != null && m == D.Hide {
        browser.Perform(T.Hide);
        result.Success(Some(Bool(true)));
      } else if browser != null && m == D.Close {
        browser.Perform(T.Close);
        result.Success(Some(Bool(true)));
      } else {
        result.NotImplemented();
      }
    }

    /** The branches of the methods the webview itself carries out. */
    method InvokeOnWebView(m: D.MethodId, args: map<string, Value>, result: ReplySink) returns (callback: PendingReply?)
      requires webView != null && result.reply == None
      requires !D.NeedsBrowser(m) && D.HasRequiredArguments(m, args)
      modifies result, webView
      ensures
        var s := D.Handle(m, args, old(webView.View()));
        && webView.calls == old(webView.calls) + s.webViewCalls
        && webView.inAppBrowser == old(webView.inAppBrowser)
        && s.browserCalls == []
        && (s.outcome.Replied? ==> result.reply == Some(s.outcome.reply) && callback == null)
        && (s.outcome.Deferred? ==>
              && result.reply == None && callback != null && fresh(callback)
              && callback.kind == s.outcome.continuation && callback.sink == result)
      // A query leaves what the webview reports as it was.
      ensures D.StyleOf(m) == D.Query ==> webView.View() == old(webView.View())
    {
      callback := null;
      match m
      case GetUrl =>
        var url := webView.GetUrlNow();
        result.Success(Some(OptionalString(url)));
      case GetTitle =>
        var url := webView.GetUrlNow();
        result.Success(Some(OptionalString(url)));
      case LoadUrl =>
        webView.Perform(T.LoadUrl(args["urlRequest"].entries));
        result.Success(Some(Bool(true)));
      case LoadFile =>
        webView.Perform(T.LoadFile(args["assetFilePath"].s));
        result.Success(Some(Bool(true)));
      case LoadData =>
        webView.Perform(T.LoadData(args["data"].s));
        result.Success(Some(Bool(true)));
      case Reload =>
        webView.Perform(T.Reload);
        result.Success(Some(Bool(true)));
      case GoBack =>
        webView.Perform(T.GoBack);
        result.Success(Some(Bool(true)));
      case CanGoBack =>
        var b := webView.CanGoBackNow();
        result.Success(Some(Bool(b)));
      case GoForward =>
        webView.Perform(T.GoForward);
        result.Success(Some(Bool(true)));
      case CanGoForward =>
        var b := webView.CanGoForwardNow();
        result.Success(Some(Bool(b)));
      case GoBackOrForward =>
        webView.Perform(T.GoBackOrForward(args["steps"].i));
        result.Success(Some(Bool(true)));
      case CanGoBackOrForward =>
        webView.Perform(T.CanGoBackOrForward(args["steps"].i));
        callback := new PendingReply(ReplyWithBool, result);
      case IsLoading =>
        var b := webView.IsLoadingNow();
        result.Success(Some(Bool(b)));
      case StopLoading =>
        webView.Perform(T.StopLoading);
        result.Success(Some(Bool(true)));
      case EvaluateJavascript =>
        webView.Perform(T.EvaluateJavascript(args["source"].s, D.WorldArgument(args)));
        callback := new PendingReply(ReplyWithString, result);
      case CallAsyncJavaScript =>
        webView.Perform(T.CallAsyncJavaScript(args["functionBody"].s, args["arguments"].s, D.WorldArgument(args)));
        callback := new PendingReply(ReplyWithString, result);
      case GetCopyBackForwardList =>
        webView.Perform(T.GetCopyBackForwardList);
        callback := new PendingReply(ReplyWithHistory, result);
      case AddUserScript =>
        webView.Perform(T.AddUserScript(args["userScript"].entries));
        result.Success(Some(Bool(true)));
      case RemoveUserScript =>
        webView.Perform(T.RemoveUserScript(args["index"].i, args["userScript"].entries));
        result.Success(Some(Bool(true)));
      case RemoveUserScriptsByGroupName =>
        webView.Perform(T.RemoveUserScriptsByGroupName(args["groupName"].s));
        result.Success(Some(Bool(true)));
      case RemoveAllUserScripts =>
        webView.Perform(T.RemoveAllUserScripts);
        result.Success(Some(Bool(true)));
      case TakeScreenshot =>
        webView.Perform(T.TakeScreenshot(D.OptionalMapArg(args, "screenshotConfiguration")));
        callback := new PendingReply(ReplyWithScreenshot, result);
    }

    method OnLoadStart(url: Option<string>)
      modifies this`sent
      ensures sent == old(sent) + Emission(channelPresent, E.LoadStart(url))
    {
      if !channelPresent {
        return;
      }
      sent := sent + [E.Encode(E.LoadStart(url))];
    }

    method OnLoadStop(url: Option<string>)
      modifies this`sent
      ensures sent == old(sent) + Emission(channelPresent, E.LoadStop(url))
    {
      if !channelPresent {
        return;
      }
      sent := sent + [E.Encode(E.LoadStop(url))];
    }

    /** Sent with the navigation-decision callback attached. */
    method ShouldOverrideUrlLoading(navigationAction: map<string, Value>)
      modifies this`sent
      ensures sent == old(sent) + Emission(channelPresent, E.ShouldOverrideUrlLoading(navigationAction))
    {
      if !channelPresent {
        return;
      }
      sent := sent + [E.Encode(E.ShouldOverrideUrlLoading(navigationAction))];
    }

    method OnReceivedError(request: map<string, Value>, error: map<string, Value>)
      modifies this`sent
      ensures sent == old(sent) + Emission(channelPresent, E.ReceivedError(request, error))
    {
      if !channelPresent {
        return;
      }
      sent := sent + [E.Encode(E.ReceivedError(request, error))];
    }

    method OnReceivedHttpError(request: map<string, Value>, errorResponse: map<string, Value>)
      modifies this`sent
      ensures sent == old(sent) + Emission(channelPresent, E.ReceivedHttpError(request, errorResponse))
    {
      if !channelPresent {
        return;
      }
      sent := sent + [E.Encode(E.ReceivedHttpError(request, errorResponse))];
    }

    /** Also tells the embedding browser, after the send, when there is one. */
    method OnTitleChanged(title: Option<string>)
      modifies this`sent, BrowserOf(webView)
      ensures sent == old(sent) + Emission(channelPresent, E.TitleChanged(title))
      ensures webView != null && webView.inAppBrowser != null ==>
        webView.inAppBrowser.calls ==
          old(webView.inAppBrowser.calls) + (if channelPresent then [T.DidChangeTitle(title)] else [])
    {
      if !channelPresent {
        return;
      }
      sent := sent + [E.Encode(E.TitleChanged(title))];
      if webView != null && webView.inAppBrowser != null {
        webView.inAppBrowser.Perform(T.DidChangeTitle(title));
      }
    }

    method OnUpdateVisitedHistory(url: Option<string>, isReload: Option<bool>)
      modifies this`sent
      ensures sent == old(sent) + Emission(channelPresent, E.UpdateVisitedHistory(url, isReload))
    {
      if !channelPresent {
        return;
      }
      sent := sent + [E.Encode(E.UpdateVisitedHistory(url, isReload))];
    }

    /** Sent with the JavaScript-handler callback attached. */
    method OnCallJsHandler(handlerName: string, args: string)
      modifies this`sent
      ensures sent == old(sent) + Emission(channelPresent, E.CallJsHandler(handlerName, args))
    {
      if !channelPresent {
        return;
      }
      sent := sent + [E.Encode(E.CallJsHandler(handlerName, args))];
    }

    method OnConsoleMessage(message: string, messageLevel: int64)
      modifies this`sent
      ensures sent == old(sent) + Emission(channelPresent, E.ConsoleMessage(message, messageLevel))
    {
      if !channelPresent {
        return;
      }
      sent := sent + [E.Encode(E.ConsoleMessage(message, messageLevel))];
    }

    /** The destructor: the delegate forgets its webview. */
    method Dispose()
      modifies this`webView
      ensures webView == null
    {
      webView := null;
    }
  }
}
