/** The delegate's collaborators: the InAppWebView it drives and the optional
    InAppBrowser that embeds it. Their behaviour is not modelled; each object
    records the operations invoked on it, in order, and the webview exposes the
    state that its query operations report. */
module Target {
  import opened Values

  /** The script isolation world passed to script evaluation: ContentWorld::page()
      or one built from the map the host sent. */
  datatype ContentWorld = PageWorld | WorldFromMap(description: map<string, Value>)

  /** One invocation of an InAppWebView operation, with the arguments it got.
      Argument objects (URLRequest, UserScript, ScreenshotConfiguration) are
      represented by the maps they are constructed from. */
  datatype WebViewCall =
    | GetUrl
    | GetTitle
    | CanGoBack
    | CanGoForward
    | IsLoading
    | LoadUrl(urlRequest: map<string, Value>)
    | LoadFile(assetFilePath: string)
    | LoadData(data: string)
    | Reload
    | GoBack
    | GoForward
    | GoBackOrForward(steps: int32)
    | CanGoBackOrForward(steps: int32)
    | StopLoading
    | EvaluateJavascript(source: string, world: ContentWorld)
    | CallAsyncJavaScript(functionBody: string, arguments: string, world: ContentWorld)
    | GetCopyBackForwardList
    | AddUserScript(userScript: map<string, Value>)
    | RemoveUserScript(index: int32, userScript: map<string, Value>)
    | RemoveUserScriptsByGroupName(groupName: string)
    | RemoveAllUserScripts
    | TakeScreenshot(configuration: Option<map<string, Value>>)

  /** One invocation of an InAppBrowser operation. */
  datatype BrowserCall = Show | Hide | Close | DidChangeTitle(title: Option<string>)

  /** The InAppWebView member function a recorded call invokes. */
  function OpName(c: WebViewCall): string
  {
    match c
    case GetUrl => "getUrl"
    case GetTitle => "getTitle"
    case CanGoBack => "canGoBack"
    case CanGoForward => "canGoForward"
    case IsLoading => "isLoading"
    case LoadUrl(_) => "loadUrl"
    case LoadFile(_) => "loadFile"
    case LoadData(_) => "loadData"
    case Reload => "reload"
    case GoBack => "goBack"
    case GoForward => "goForward"
    case GoBackOrForward(_) => "goBackOrForward"
    case CanGoBackOrForward(_) => "canGoBackOrForward"
    case StopLoading => "stopLoading"
    case EvaluateJavascript(_, _) => "evaluateJavascript"
    case CallAsyncJavaScript(_, _, _) => "callAsyncJavaScript"
    case GetCopyBackForwardList => "getCopyBackForwardList"
    case AddUserScript(_) => "addUserScript"
    case RemoveUserScript(_, _) => "removeUserScript"
    case RemoveUserScriptsByGroupName(_) => "removeUserScriptsByGroupName"
    case RemoveAllUserScripts => "removeAllUserScripts"
    case TakeScreenshot(_) => "takeScreenshot"
  }

  /** The InAppBrowser member function a recorded call invokes. */
  function BrowserOpName(c: BrowserCall): string
  {
    match c
    case Show => "show"
    case Hide => "hide"
    case Close => "close"
    case DidChangeTitle(_) => "didChangeTitle"
  }

  /** What the dispatcher can observe of the webview: what its queries report,
      and whether an InAppBrowser is attached. */
  datatype TargetView = TargetView(
    url: Option<string>,
    title: Option<string>,
    canGoBack: bool,
    canGoForward: bool,
    isLoading: bool,
    browserAttached: bool)

  class InAppBrowser {
    var calls: seq<BrowserCall>

    constructor ()
      ensures calls == []
    {
      calls := [];
    }

    method Perform(c: BrowserCall)
      modifies this
      ensures calls == old(calls) + [c]
    {
      calls := calls + [c];
    }
  }

  class InAppWebView {
    var url: Option<string>
    var title: Option<string>
    var canGoBack: bool
    var canGoForward: bool
    var loading: bool
    var inAppBrowser: InAppBrowser?
    var calls: seq<WebViewCall>

    constructor (url: Option<string>, title: Option<string>, canGoBack: bool, canGoForward: bool,
                 loading: bool, inAppBrowser: InAppBrowser?)
      ensures View() == TargetView(url, title, canGoBack, canGoForward, loading, inAppBrowser != null)
      ensures this.inAppBrowser == inAppBrowser && calls == []
    {
      this.url := url;
      this.title := title;
      this.canGoBack := canGoBack;
      this.canGoForward := canGoForward;
      this.loading := loading;
      this.inAppBrowser := inAppBrowser;
      calls := [];
    }

    function View(): TargetView
      reads this
    {
      TargetView(url, title, canGoBack, canGoForward, loading, inAppBrowser != null)
    }

    /** Invokes an operation whose effect lies outside the model: the call is
        recorded, and what the webview reports afterwards is left open (a load,
        reload or history move changes it). The embedding browser stays. */
    method Perform(c: WebViewCall)
      modifies this
      ensures calls == old(calls) + [c]
      ensures inAppBrowser == old(inAppBrowser)
    {
      calls := calls + [c];
    }

    method GetUrlNow() returns (u: Option<string>)
      modifies this
      ensures u == url
      ensures calls == old(calls) + [GetUrl]
      ensures View() == old(View()) && inAppBrowser == old(inAppBrowser)
    {
      u := url;
      calls := calls + [GetUrl];
    }

    method CanGoBackNow() returns (b: bool)
      modifies this
      ensures b == canGoBack
      ensures calls == old(calls) + [CanGoBack]
      ensures View() == old(View()) && inAppBrowser == old(inAppBrowser)
    {
      b := canGoBack;
      calls := calls + [CanGoBack];
    }

    method CanGoForwardNow() returns (b: bool)
      modifies this
      ensures b == canGoForward
      ensures calls == old(calls) + [CanGoForward]
      ensures View() == old(View()) && inAppBrowser == old(inAppBrowser)
    {
      b := canGoForward;
      calls := calls + [CanGoForward];
    }

    method IsLoadingNow() returns (b: bool)
      modifies this
      ensures b == loading
      ensures calls == old(calls) + [IsLoading]
      ensures View() == old(View()) && inAppBrowser == old(inAppBrowser)
    {
      b := loading;
      calls := calls + [IsLoading];
    }
  }
}
