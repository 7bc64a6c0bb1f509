/**
  The API explorer page (script.js): how the typed input becomes a request
  URL, how failures become the message shown to the user, and the page
  state that `fetchAPI` updates. The network is a parameter: the reply the
  request receives.
*/
module Explorer {
  import opened Wrappers
  import opened Text
  import opened Json
  import opened Renderer
  import opened Handoff
  import opened Http

  // ---------------------------------------------------------------------
  // Input normalisation (the part of fetchAPI before any request)
  // ---------------------------------------------------------------------

  /** The base a path typed as `/...` is resolved against. */
  const LocalBase := "http://localhost:3001"

  /** "Please enter an API URL". */
  const EmptyInputMessage := "Vui lòng nhập URL API"

  /** "Invalid URL. Please enter a full URL (for example ...)". */
  const InvalidUrlMessage := "URL không hợp lệ. Vui lòng nhập URL đầy đủ (ví dụ: /gioithieu hoặc http://localhost:3001/tkb)"

  /** What the input leads to: an error message and no request, or a request to `url`. */
  datatype Request = Reject(message: string) | Send(url: string)

  /** A typed path starting with `/` is put after the local base; anything else is kept. */
  function Resolve(url: string): string {
    if StartsWith(url, "/") then LocalBase + url else url
  }

  /**
    The input handling of `fetchAPI`: trim, refuse an empty input, resolve
    a leading `/` against the local base, and refuse what the URL parser
    (`isValidUrl`, the browser's `URL` constructor) rejects.
  */
  function NormalizeInput(input: string, isValidUrl: string -> bool): (r: Request)
    ensures r.Send? ==> isValidUrl(r.url)
    ensures r.Send? ==> r.url == Resolve(Trim(input)) && Trim(input) != ""
  {
    var trimmed := Trim(input);
    if trimmed == "" then Reject(EmptyInputMessage)
    else
      var url := Resolve(trimmed);
      if !isValidUrl(url) then Reject(InvalidUrlMessage) else Send(url)
  }

  /**
    The two refusals: the empty-input message exactly for an input that is
    all whitespace, the invalid-URL message exactly for any other input
    whose resolved form the URL parser rejects.
  */
  lemma NormalizeInputRefusals(input: string, isValidUrl: string -> bool)
    ensures NormalizeInput(input, isValidUrl) == Reject(EmptyInputMessage) <==> AllWhitespace(input)
    ensures NormalizeInput(input, isValidUrl) == Reject(InvalidUrlMessage)
      <==> !AllWhitespace(input) && !isValidUrl(Resolve(Trim(input)))
  {
    TrimEmptyIff(input);
  }

  /**
    A URL that the explorer sends is already in normal form: typing it
    again sends the very same request (it is trimmed, and a resolved path
    no longer starts with `/`).
  */
  lemma NormalizeInputIdempotent(input: string, isValidUrl: string -> bool)
    requires NormalizeInput(input, isValidUrl).Send?
    ensures NormalizeInput(NormalizeInput(input, isValidUrl).url, isValidUrl) == NormalizeInput(input, isValidUrl)
  {
    var t := Trim(input);
    TrimIdempotent(input);
    ResolveIdempotent(t);
    var url := Resolve(t);
    assert NormalizeInput(url, isValidUrl) == Send(url);
  }

  /** Resolving trimmed text gives trimmed text that no longer starts with `/`, so resolving again changes nothing. */
  lemma ResolveIdempotent(t: string)
    requires t != "" && Trim(t) == t
    ensures Resolve(t) != "" && Trim(Resolve(t)) == Resolve(t) && Resolve(Resolve(t)) == Resolve(t)
  {
    if StartsWith(t, "/") {
      TrimIsInfix(t);
      var url := LocalBase + t;
      assert url[0] == 'h' && url[|url| - 1] == t[|t| - 1];
      TrimOfTrimmed(url);
      assert !StartsWith(url, "/") by { assert url[..1] == "h"; }
    }
  }

  // ---------------------------------------------------------------------
  // Error messages (the catch block of fetchAPI)
  // ---------------------------------------------------------------------

  /** "Cannot connect to the API. " */
  const ConnectFailurePrefix := "Không thể kết nối đến API. "

  /** The checklist shown for a network failure: server running? URL right? CORS configured? */
  const ConnectHints :=
    "Vui lòng kiểm tra:\n"
    + "• Server có đang chạy không?\n"
    + "• URL có đúng không?\n"
    + "• CORS có được cấu hình không?"

  /** The text of the error thrown for a non-ok HTTP status. */
  function HttpErrorText(status: int, statusText: string): string {
    "HTTP Error: " + IntText(status) + " " + statusText
  }

  /**
    The message shown for a caught error: the prefix, then the checklist
    when the error text mentions `Failed to fetch`, else the error text
    itself (the `HTTP Error` branch and the last branch show the same).
  */
  function FailureMessage(errorText: string): (m: string)
    ensures StartsWith(m, ConnectFailurePrefix)
    ensures Contains(errorText, "Failed to fetch") ==> m[|ConnectFailurePrefix|..] == ConnectHints
    ensures !Contains(errorText, "Failed to fetch") ==> m[|ConnectFailurePrefix|..] == errorText
  {
    var m := ConnectFailurePrefix + (if Contains(errorText, "Failed to fetch") then ConnectHints else errorText);
    assert m[..|ConnectFailurePrefix|] == ConnectFailurePrefix;
    m
  }

  /**
    An HTTP failure is shown with its status code and reason text, unless
    the reason text itself says `Failed to fetch`: nothing before the
    reason text can start that phrase.
  */
  lemma HttpFailureQuoted(status: int, statusText: string)
    ensures var shown := FailureMessage(HttpErrorText(status, statusText));
      !Contains(statusText, "Failed to fetch") <==> shown == ConnectFailurePrefix + HttpErrorText(status, statusText)
  {
    var p := "Failed to fetch";
    var head := "HTTP Error: " + IntText(status) + " ";
    assert HttpErrorText(status, statusText) == head + statusText;
    forall k | 0 <= k < |head| ensures head[k] != p[0] {
      if 12 <= k < |head| - 1 {
        assert head[k] == IntText(status)[k - 12];
      }
    }
    ContainsAfterForeignPrefix(head, statusText, p);
    if Contains(statusText, p) {
      assert ConnectHints != HttpErrorText(status, statusText) by {
        assert ConnectHints[0] == 'V';
        assert HttpErrorText(status, statusText)[0] == head[0] == 'H';
      }
      var shown := FailureMessage(HttpErrorText(status, statusText));
      assert shown[|ConnectFailurePrefix|..] == ConnectHints;
      assert (ConnectFailurePrefix + HttpErrorText(status, statusText))[|ConnectFailurePrefix|..]
        == HttpErrorText(status, statusText);
    }
  }

  /** The engine's text for the errors `renderData` throws (the wording of the V8 engine). */
  function RenderErrorText(e: RenderError): string {
    match e
    case NullRead => "Cannot read properties of null (reading 'data')"
    case NullEntries => "Cannot convert undefined or null to object"
  }

  // ---------------------------------------------------------------------
  // The page state fetchAPI updates
  // ---------------------------------------------------------------------

  /** The visible state panel. */
  datatype Panel = Idle | ErrorPanel(message: string) | ResultsPanel

  /** The text of the error the reply raises before anything is rendered, if it raises one. */
  function ReplyError(reply: Reply): (e: Option<string>)
    ensures e.None? <==> reply.Response? && reply.ok && reply.body.Parsed?
  {
    match reply
    case NetworkFailure(m) => Some(m)
    case Response(ok, status, statusText, body) =>
      if !ok then Some(HttpErrorText(status, statusText))
      else if body.Unparsable? then Some(body.message)
      else None
  }

  /** The parts of the explorer page that `fetchAPI` reads or writes, besides the input box. */
  datatype Page = Page(
    panel: Panel,
    resultContent: seq<Node>,   // the display nodes in the result area
    rawJson: string,            // the text of the raw-JSON view
    currentData: Option<Value>, // the last parsed response body, kept for copying
    requests: seq<string>)      // every URL handed to `fetch`, in order

  /**
    `fetchAPI` on the page `p` with `input` in the box. A refused input
    shows its message and sends nothing. Otherwise exactly one request is
    sent; a failure before the body is parsed shows the composed failure
    message; a parsed body becomes `currentData` and is rendered, and a
    render that throws leaves its partial nodes in the result area, the old
    raw view, and the failure message on screen.
  */
  function FetchSpec(p: Page, input: string, isValidUrl: string -> bool, reply: Reply): Page {
    match NormalizeInput(input, isValidUrl)
    case Reject(message) => p.(panel := ErrorPanel(message))
    case Send(url) => ReplySpec(p.(requests := p.requests + [url]), reply)
  }

  /** The part of `fetchAPI` after the request is sent: what the reply does to the page. */
  function ReplySpec(p: Page, reply: Reply): (q: Page)
    ensures q.requests == p.requests
  {
    match ReplyError(reply)
    case Some(e) => p.(panel := ErrorPanel(FailureMessage(e)))
    case None => OutcomeSpec(p.(currentData := Some(reply.body.value)), RenderSpec(reply.body.value))
  }

  /** How the outcome of `renderData` is shown. */
  function OutcomeSpec(p: Page, out: Outcome): (q: Page)
    ensures q.requests == p.requests && q.currentData == p.currentData
  {
    match out
    case Rendered(nodes, raw) => p.(panel := ResultsPanel, resultContent := nodes, rawJson := raw)
    case Failed(partial, e) => p.(panel := ErrorPanel(FailureMessage(RenderErrorText(e))), resultContent := partial)
  }

  /** A fetch sends at most one request, and only to a URL that passed validation. */
  lemma FetchSendsOnlyValidUrls(p: Page, input: string, isValidUrl: string -> bool, reply: Reply)
    ensures var q := FetchSpec(p, input, isValidUrl, reply);
      || q.requests == p.requests
      || (exists url :: q.requests == p.requests + [url] && isValidUrl(url))
  {
    var req := NormalizeInput(input, isValidUrl);
    if req.Send? {
      assert FetchSpec(p, input, isValidUrl, reply).requests == p.requests + [req.url];
    }
  }

  /** A refused input changes nothing on the page but the panel, which shows the refusal. */
  lemma RefusedInputOnlyShowsMessage(p: Page, input: string, isValidUrl: string -> bool, reply: Reply)
    requires AllWhitespace(input) || !isValidUrl(Resolve(Trim(input)))
    ensures var q := FetchSpec(p, input, isValidUrl, reply);
      && q.panel.ErrorPanel?
      && (q.panel.message == EmptyInputMessage || q.panel.message == InvalidUrlMessage)
      && q.(panel := p.panel) == p
  {
    NormalizeInputRefusals(input, isValidUrl);
  }

  /**
    The raw view changes only when a render completes, and then it shows
    the serialisation of the whole body just stored as `currentData`.
  */
  lemma RawViewFollowsCompletedRender(p: Page, input: string, isValidUrl: string -> bool, reply: Reply)
    ensures var q := FetchSpec(p, input, isValidUrl, reply);
      q.rawJson != p.rawJson ==>
        q.panel == ResultsPanel && q.currentData.Some? && q.rawJson == Stringify(q.currentData.value)
  {
    var q := FetchSpec(p, input, isValidUrl, reply);
    if q.rawJson != p.rawJson {
      var data := reply.body.value;
      RawViewIsOriginal(data);
    }
  }

  /**
    Once a body parses it is stored as `currentData`, even when rendering
    it then throws and the page shows an error.
  */
  lemma ParsedBodyAlwaysStored(p: Page, input: string, isValidUrl: string -> bool, data: Value, status: int, statusText: string)
    requires NormalizeInput(input, isValidUrl).Send?
    ensures FetchSpec(p, input, isValidUrl, Response(true, status, statusText, Parsed(data))).currentData == Some(data)
  {
    var reply := Response(true, status, statusText, Parsed(data));
    var sent := p.(requests := p.requests + [NormalizeInput(input, isValidUrl).url]);
    assert ReplyError(reply).None?;
    assert FetchSpec(p, input, isValidUrl, reply) == ReplySpec(sent, reply);
    assert ReplySpec(sent, reply) == OutcomeSpec(sent.(currentData := Some(data)), RenderSpec(data));
  }

  class Explorer {
    /** The text in the input box. */
    var input: string
    var panel: Panel
    var resultContent: seq<Node>
    var rawJson: string
    var currentData: Option<Value>
    var requests: seq<string>

    function State(): Page
      reads this
    {
      Page(panel, resultContent, rawJson, currentData, requests)
    }

    constructor ()
      ensures input == "" && State() == Page(Idle, [], "", None, [])
    {
      input := "";
      panel := Idle;
      resultContent := [];
      rawJson := "";
      currentData := None;
      requests := [];
    }

    /** `fetchAPI`: normalise the input, send the request, and render the reply. */
    method FetchApi(isValidUrl: string -> bool, reply: Reply)
      modifies this
      ensures input == old(input)
      ensures State() == FetchSpec(old(State()), input, isValidUrl, reply)
    {
      ghost var before := State();
      var req := NormalizeInput(input, isValidUrl);
      match req
      case Reject(message) =>
        panel := ErrorPanel(message);
      case Send(url) =>
        requests := requests + [url];
        assert State() == before.(requests := before.requests + [url]);
        ShowReply(reply);
    }

    /** The `try` block of `fetchAPI` once the request is sent. */
    method ShowReply(reply: Reply)
      modifies this
      ensures input == old(input)
      ensures State() == ReplySpec(old(State()), reply)
    {
      var failure := ReplyError(reply);
      if failure.Some? {
        panel := ErrorPanel(FailureMessage(failure.value));
        return;
      }
      var data := reply.body.value;
      currentData := Some(data);
      var out := RenderData(data);
      ShowOutcome(out);
    }

    /** Puts what `renderData` produced, or the error it threw, on the page. */
    method ShowOutcome(out: Outcome)
      modifies this
      ensures input == old(input)
      ensures State() == OutcomeSpec(old(State()), out)
    {
      match out
      case Rendered(nodes, raw) =>
        resultContent := nodes;
        rawJson := raw;
        panel := ResultsPanel;
      case Failed(partial, e) =>
        resultContent := partial;
        panel := ErrorPanel(FailureMessage(RenderErrorText(e)));
    }

    /**
      The page's start-up hand-off: a URL left by the docs page is put in
      the input box and fetched; the slot comes back cleared. Without one,
      nothing changes.
    */
    method OpenFromDocs(stored: Option<string>, isValidUrl: string -> bool, reply: Reply)
      returns (remaining: Option<string>)
      modifies this
      ensures remaining == TakeOnLoad(stored).stored
      ensures TakeOnLoad(stored).prefill.None? ==> input == old(input) && State() == old(State())
      ensures TakeOnLoad(stored).prefill.Some? ==>
        && input == TakeOnLoad(stored).prefill.value
        && State() == FetchSpec(old(State()), input, isValidUrl, reply)
    {
      var load := TakeOnLoad(stored);
      remaining := load.stored;
      if load.prefill.Some? {
        input := load.prefill.value;
        FetchApi(isValidUrl, reply);
      }
    }
  }
}
