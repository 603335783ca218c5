/** Concrete runs of the delegate: a webview and its delegate are built, one
    call or event is fed in, and what the host and the webview observe is read
    back. */
module Scenarios {
  import opened Values
  import opened Replies
  import T = Target
  import D = Dispatcher
  import E = Events
  import opened ChannelDelegate

  /** loadUrl hands the request map to the webview and replies true at once. */
  method LoadUrlRepliesTrue() returns (reply: Option<Reply>, calls: seq<T.WebViewCall>)
    ensures reply == Some(Success(Some(Bool(true))))
    ensures calls == [T.LoadUrl(map["url" := Str("https://example.com")])]
  {
    var webView := new T.InAppWebView(None, None, false, false, false, null);
    var delegate := new WebViewChannelDelegate(webView, true);
    var sink := new ReplySink();
    var request := map["url" := Str("https://example.com")];
    D.LookupFindsWireName(D.LoadUrl);
    var callback := delegate.HandleMethodCall(D.MethodCall(D.WireName(D.LoadUrl), Map(map["urlRequest" := Map(request)])), sink);
    reply := sink.reply;
    calls := webView.calls;
  }

  /** goBackOrForward replies true at once; it is canGoBackOrForward whose
      reply waits for the webview, and an infeasible move is answered false. */
  method StepsAreSyncButFeasibilityIsDeferred()
    returns (moveReply: Option<Reply>, beforeCompletion: Option<Reply>, feasibilityReply: Option<Reply>,
             calls: seq<T.WebViewCall>)
    ensures moveReply == Some(Success(Some(Bool(true))))
    ensures beforeCompletion == None
    ensures feasibilityReply == Some(Success(Some(Bool(false))))
    ensures calls == [T.GoBackOrForward(2), T.CanGoBackOrForward(2)]
  {
    var webView := new T.InAppWebView(None, None, false, false, false, null);
    var delegate := new WebViewChannelDelegate(webView, true);
    var args := Map(map["steps" := I32(2)]);
    var moveSink := new ReplySink();
    D.LookupFindsWireName(D.GoBackOrForward);
    var none := delegate.HandleMethodCall(D.MethodCall(D.WireName(D.GoBackOrForward), args), moveSink);
    moveReply := moveSink.reply;
    var querySink := new ReplySink();
    D.LookupFindsWireName(D.CanGoBackOrForward);
    var callback := delegate.HandleMethodCall(D.MethodCall(D.WireName(D.CanGoBackOrForward), args), querySink);
    beforeCompletion := querySink.reply;
    callback.Complete(BoolValue(false));
    feasibilityReply := querySink.reply;
    calls := webView.calls;
  }

  /** evaluateJavascript without a contentWorld runs in the page world, and its
      deferred reply is the string the webview produced. */
  method EvaluateDefaultsToPageWorld() returns (reply: Option<Reply>, calls: seq<T.WebViewCall>)
    ensures reply == Some(Success(Some(Str("2"))))
    ensures calls == [T.EvaluateJavascript("1+1", T.PageWorld)]
  {
    var webView := new T.InAppWebView(None, None, false, false, false, null);
    var delegate := new WebViewChannelDelegate(webView, true);
    var sink := new ReplySink();
    D.LookupFindsWireName(D.EvaluateJavascript);
    var callback := delegate.HandleMethodCall(D.MethodCall(D.WireName(D.EvaluateJavascript), Map(map["source" := Str("1+1")])), sink);
    callback.Complete(StringValue("2"));
    reply := sink.reply;
    calls := webView.calls;
  }

  /** show without an embedding browser is not implemented. */
  method ShowWithoutBrowserIsNotImplemented() returns (reply: Option<Reply>, calls: seq<T.WebViewCall>)
    ensures reply == Some(NotImplemented)
    ensures calls == []
  {
    var webView := new T.InAppWebView(None, None, false, false, false, null);
    var delegate := new WebViewChannelDelegate(webView, true);
    var sink := new ReplySink();
    D.LookupFindsWireName(D.Show);
    var callback := delegate.HandleMethodCall(D.MethodCall(D.WireName(D.Show), Map(map[])), sink);
    reply := sink.reply;
    calls := webView.calls;
  }

  /** show with an embedding browser reaches the browser and replies true. */
  method ShowReachesBrowser() returns (reply: Option<Reply>, browserCalls: seq<T.BrowserCall>)
    ensures reply == Some(Success(Some(Bool(true))))
    ensures browserCalls == [T.Show]
  {
    var browser := new T.InAppBrowser();
    var webView := new T.InAppWebView(None, None, false, false, false, browser);
    var delegate := new WebViewChannelDelegate(webView, true);
    var sink := new ReplySink();
    D.LookupFindsWireName(D.Show);
    var callback := delegate.HandleMethodCall(D.MethodCall(D.WireName(D.Show), Map(map[])), sink);
    reply := sink.reply;
    browserCalls := browser.calls;
  }

  /** A title change is sent to the host and then passed to the embedding browser. */
  method TitleReachesBrowser() returns (sent: seq<E.OutboundMessage>, browserCalls: seq<T.BrowserCall>)
    ensures sent == [E.OutboundMessage("onTitleChanged", Map(map["title" := Str("Example")]), E.NoReply)]
    ensures browserCalls == [T.DidChangeTitle(Some("Example"))]
  {
    var browser := new T.InAppBrowser();
    var webView := new T.InAppWebView(None, None, false, false, false, browser);
    var delegate := new WebViewChannelDelegate(webView, true);
    delegate.OnTitleChanged(Some("Example"));
    sent := delegate.sent;
    browserCalls := browser.calls;
  }

  /** Without a channel nothing is sent, and the browser is not told either. */
  method NoChannelNoTitleFanOut() returns (sent: seq<E.OutboundMessage>, browserCalls: seq<T.BrowserCall>)
    ensures sent == [] && browserCalls == []
  {
    var browser := new T.InAppBrowser();
    var webView := new T.InAppWebView(None, None, false, false, false, browser);
    var delegate := new WebViewChannelDelegate(webView, false);
    delegate.OnTitleChanged(Some("Example"));
    sent := delegate.sent;
    browserCalls := browser.calls;
  }

  /** After the destructor, any call gets an empty success and the webview is not touched. */
  method CallAfterDispose() returns (reply: Option<Reply>, calls: seq<T.WebViewCall>)
    ensures reply == Some(Success(None))
    ensures calls == []
  {
    var webView := new T.InAppWebView(Some("https://example.com"), None, false, false, false, null);
    var delegate := new WebViewChannelDelegate(webView, true);
    delegate.Dispose();
    var sink := new ReplySink();
    var callback := delegate.HandleMethodCall(D.MethodCall(D.WireName(D.Reload), Null), sink);
    reply := sink.reply;
    calls := webView.calls;
  }
}
