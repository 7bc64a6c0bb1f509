/**
  The docs page (docs.js): it looks for a backend that lists its endpoints
  by probing candidate bases in order, then shows one card per endpoint
  with a button that hands the endpoint's URL over to the explorer. The
  page origin and the network are parameters.
*/
module Docs {
  import opened Wrappers
  import opened Text
  import opened Json
  import opened Http
  import opened Handoff

  /** The deployed backend, probed last and used when the page origin is unsuitable. */
  const FallbackBase := "https://api-mvr.vercel.app"

  /** The path a backend lists its endpoints under. */
  const EndpointsPath := "/__endpoints"

  // ---------------------------------------------------------------------
  // getDefaultBase and the candidate list
  // ---------------------------------------------------------------------

  /** The page origin is usable: non-empty and not the string `"null"` that sandboxed and file pages report. */
  predicate UsableOrigin(origin: string) {
    origin != "" && origin != "null"
  }

  /** `getDefaultBase`: the page origin when it is usable and served over https, else the fallback. */
  function DefaultBase(origin: string): string {
    if UsableOrigin(origin) && StartsWith(origin, "https") then origin else FallbackBase
  }

  /** The default base is always an https address, and it is the origin exactly when the origin qualifies. */
  lemma DefaultBaseIsHttps(origin: string)
    ensures StartsWith(DefaultBase(origin), "https")
    ensures DefaultBase(origin) == origin <==> (UsableOrigin(origin) && StartsWith(origin, "https")) || origin == FallbackBase
  {
    assert FallbackBase[..5] == "https";
  }

  /** The bases `fetchAndRenderEndpoints` probes: a usable page origin, then the fallback. */
  function Candidates(origin: string): seq<string> {
    (if UsableOrigin(origin) then [origin] else []) + [FallbackBase]
  }

  /**
    The fallback is always the last candidate, and the origin comes before
    it exactly when it is usable.
  */
  lemma CandidatesShape(origin: string)
    ensures |Candidates(origin)| >= 1 && Candidates(origin)[|Candidates(origin)| - 1] == FallbackBase
    ensures UsableOrigin(origin) <==> |Candidates(origin)| == 2
    ensures UsableOrigin(origin) ==> Candidates(origin)[0] == origin
    ensures forall c :: c in Candidates(origin) ==> c != "" && c != "null"
  {
  }

  // ---------------------------------------------------------------------
  // The probe loop
  // ---------------------------------------------------------------------

  /** The URL probed for a base. */
  function ProbeUrl(base: string): string {
    base + EndpointsPath
  }

  /** A probe succeeds when the response is ok and its body parses to an array. */
  predicate Accepts(reply: Reply) {
    reply.Response? && reply.ok && reply.body.Parsed? && reply.body.value.Arr?
  }

  /** The index of the first candidate whose probe succeeds, if there is one. */
  function FirstAccepting(candidates: seq<string>, respond: string -> Reply): (r: Option<nat>)
    ensures r.Some? ==> r.value < |candidates| && Accepts(respond(ProbeUrl(candidates[r.value])))
    ensures r.Some? ==> forall k :: 0 <= k < r.value ==> !Accepts(respond(ProbeUrl(candidates[k])))
    ensures r.None? ==> forall k :: 0 <= k < |candidates| ==> !Accepts(respond(ProbeUrl(candidates[k])))
  {
    if candidates == [] then None
    else if Accepts(respond(ProbeUrl(candidates[0]))) then Some(0)
    else
      var r := FirstAccepting(candidates[1..], respond);
      assert forall k :: 0 < k < |candidates| ==> candidates[k] == candidates[1..][k - 1];
      if r.Some? then Some(r.value + 1) else None
  }

  /** The URLs requested, in order: every candidate up to and including the first success. */
  function ProbedUrls(candidates: seq<string>, respond: string -> Reply): (urls: seq<string>) {
    var n := match FirstAccepting(candidates, respond)
      case Some(i) => i + 1
      case None => |candidates|;
    seq(n, k requires 0 <= k < n => ProbeUrl(candidates[k]))
  }

  /** What the probe loop ends with: the endpoint list and the base that served it. */
  datatype Located = NotFound | Found(endpoints: seq<Value>, base: string)

  function LocateSpec(candidates: seq<string>, respond: string -> Reply): Located {
    match FirstAccepting(candidates, respond)
    case None => NotFound
    case Some(i) => Found(respond(ProbeUrl(candidates[i])).body.value.items, candidates[i])
  }

  /**
    The `for` loop of `fetchAndRenderEndpoints`: probe each candidate in
    order; a failed request, a status that is not ok, a body that does not
    parse and a body that is not an array all move on to the next
    candidate; the first array ends the loop.
  */
  method Locate(candidates: seq<string>, respond: string -> Reply) returns (found: Located, probed: seq<string>)
    ensures found == LocateSpec(candidates, respond)
    ensures probed == ProbedUrls(candidates, respond)
  {
    found := NotFound;
    probed := [];
    for i := 0 to |candidates|
      invariant probed == seq(i, k requires 0 <= k < i => ProbeUrl(candidates[k]))
      invariant forall k :: 0 <= k < i ==> !Accepts(respond(ProbeUrl(candidates[k])))
    {
      var url := ProbeUrl(candidates[i]);
      probed := probed + [url];
      var reply := respond(url);
      if Accepts(reply) {
        found := Found(reply.body.value.items, candidates[i]);
        FirstAcceptingAt(candidates, respond, i);
        return;
      }
    }
    FirstAcceptingNone(candidates, respond);
  }

  /** A success at `i` after failures everywhere before it is the first success. */
  lemma {:induction false} FirstAcceptingAt(candidates: seq<string>, respond: string -> Reply, i: nat)
    requires i < |candidates| && Accepts(respond(ProbeUrl(candidates[i])))
    requires forall k :: 0 <= k < i ==> !Accepts(respond(ProbeUrl(candidates[k])))
    ensures FirstAccepting(candidates, respond) == Some(i)
  {
    if i > 0 {
      FirstAcceptingAt(candidates[1..], respond, i - 1);
    }
  }

  /** With no success anywhere there is no first success. */
  lemma {:induction false} FirstAcceptingNone(candidates: seq<string>, respond: string -> Reply)
    requires forall k :: 0 <= k < |candidates| ==> !Accepts(respond(ProbeUrl(candidates[k])))
    ensures FirstAccepting(candidates, respond) == None
  {
    if candidates != [] {
      FirstAcceptingNone(candidates[1..], respond);
    }
  }

  /**
    The probes go strictly in list order and stop at the first success:
    the URLs requested are a prefix of the candidates' probe URLs, every
    probe before the last failed, and the last one is the success whenever
    there is one.
  */
  lemma ProbesStopAtFirstSuccess(candidates: seq<string>, respond: string -> Reply)
    ensures var urls := ProbedUrls(candidates, respond);
      && |urls| <= |candidates|
      && (forall k :: 0 <= k < |urls| ==> urls[k] == ProbeUrl(candidates[k]))
      && (forall k :: 0 <= k < |urls| - 1 ==> !Accepts(respond(urls[k])))
      && (LocateSpec(candidates, respond).Found? <==> urls != [] && Accepts(respond(urls[|urls| - 1])))
  {
  }

  // ---------------------------------------------------------------------
  // renderEndpointCard
  // ---------------------------------------------------------------------

  /** The texts and attributes of one endpoint card. */
  datatype EndpointCard = EndpointCard(
    badge: string,
    httpMethod: string,
    title: string,
    testUrl: string,             // the test button's `data-url`
    urlText: string,
    description: string,
    example: Option<string>)     // the "Response:" block, shown for a truthy `exampleResponse`

  /**
    `renderEndpointCard(ep, baseUrl)`, or None when it throws: reading a
    property of a `null` endpoint, or calling `toUpperCase` on a truthy
    `method` that is not a string.
  */
  function CardSpec(ep: Value, baseUrl: string, origin: string): Option<EndpointCard> {
    if ep.Null? then None
    else
      var m := Get(ep, "method");
      if PropTruthy(m) && !m.value.Str? then None
      else
        var heading := TextContent(Or(Get(ep, "title"), Get(ep, "path")));
        var example := Get(ep, "exampleResponse");
        Some(EndpointCard(
          heading,
          if PropTruthy(m) then Upper(m.value.s) else "GET",
          heading,
          (if baseUrl != "" then baseUrl else DefaultBase(origin)) + ConcatText(Get(ep, "path")),
          TextContent(Get(ep, "path")),
          TextContent(Or(Get(ep, "description"), Defined(Str("")))),
          if PropTruthy(example) then Some(Stringify(example.value)) else None))
  }

  /**
    The card's fields: badge and heading show the title when it is truthy
    and the path otherwise; the method is the given one in upper case (the
    same letters up to case) and is GET when missing; the test URL is the
    base (or the default base when the base is empty) directly followed by
    the path's text; the URL line shows the path; the description is the
    given one, or empty when missing; the example block appears exactly for
    a truthy example and shows its JSON.
  */
  lemma CardFields(ep: Value, baseUrl: string, origin: string)
    requires CardSpec(ep, baseUrl, origin).Some?
    ensures var c := CardSpec(ep, baseUrl, origin).value;
      && c.badge == c.title
      && (PropTruthy(Get(ep, "title")) ==> c.title == TextContent(Get(ep, "title")))
      && (!PropTruthy(Get(ep, "title")) ==> c.title == TextContent(Get(ep, "path")))
      && Upper(c.httpMethod) == c.httpMethod
      && (PropTruthy(Get(ep, "method")) ==> Lower(c.httpMethod) == Lower(Get(ep, "method").value.s))
      && (!PropTruthy(Get(ep, "method")) ==> c.httpMethod == "GET")
      && StartsWith(c.testUrl, if baseUrl != "" then baseUrl else DefaultBase(origin))
      && |c.testUrl| == |if baseUrl != "" then baseUrl else DefaultBase(origin)| + |ConcatText(Get(ep, "path"))|
      && c.testUrl[|c.testUrl| - |ConcatText(Get(ep, "path"))|..] == ConcatText(Get(ep, "path"))
      && c.urlText == TextContent(Get(ep, "path"))
      && (PropTruthy(Get(ep, "description")) ==> c.description == TextContent(Get(ep, "description")))
      && (!PropTruthy(Get(ep, "description")) ==> c.description == "")
      && (c.example.Some? <==> PropTruthy(Get(ep, "exampleResponse")))
      && (c.example.Some? ==> c.example.value == Stringify(Get(ep, "exampleResponse").value))
  {
    var m := Get(ep, "method");
    if PropTruthy(m) {
      UpperIdempotent(m.value.s);
      LowerOfUpperText(m.value.s);
    }
    var c := CardSpec(ep, baseUrl, origin).value;
    var base := if baseUrl != "" then baseUrl else DefaultBase(origin);
    assert c.testUrl == base + ConcatText(Get(ep, "path"));
  }

  /** A card cannot be made for a `null` endpoint or for a truthy method that is not a string. */
  lemma CardThrowsIff(ep: Value, baseUrl: string, origin: string)
    ensures CardSpec(ep, baseUrl, origin).None? <==>
      ep.Null? || (PropTruthy(Get(ep, "method")) && !Get(ep, "method").value.Str?)
  {
  }

  /**
    Every card's test button carries a non-empty URL (the base, or the
    https default base when the base is empty, starts it), so a click
    always stores that URL for the explorer and navigates there.
  */
  lemma TestButtonAlwaysHandsOver(ep: Value, baseUrl: string, origin: string, stored: Option<string>)
    requires CardSpec(ep, baseUrl, origin).Some?
    ensures var url := CardSpec(ep, baseUrl, origin).value.testUrl;
      TestButtonClick(Some(url), stored) == ClickEffect(Some(url), true)
  {
    var base := if baseUrl != "" then baseUrl else DefaultBase(origin);
    DefaultBaseIsHttps(origin);
    assert base != "";
    CardFields(ep, baseUrl, origin);
    var url := CardSpec(ep, baseUrl, origin).value.testUrl;
    assert |url| >= |base|;
  }

  // ---------------------------------------------------------------------
  // fetchAndRenderEndpoints
  // ---------------------------------------------------------------------

  /**
    What the endpoints container ends up showing: the message that no
    backend answered (a usable origin or ports 3000/3001 suggested), the
    cards, or the message that rendering the list failed.
  */
  datatype Listing = NoBackend | Cards(cards: seq<EndpointCard>) | RenderFailed

  /** The cards for the endpoints, in order, or None when one of them throws. */
  function CardsSpec(endpoints: seq<Value>, base: string, origin: string): (r: Option<seq<EndpointCard>>)
    ensures r.Some? ==> |r.value| == |endpoints|
    ensures r.Some? <==> forall k :: 0 <= k < |endpoints| ==> CardSpec(endpoints[k], base, origin).Some?
    ensures r.Some? ==> forall k :: 0 <= k < |endpoints| ==> r.value[k] == CardSpec(endpoints[k], base, origin).value
  {
    if forall k :: 0 <= k < |endpoints| ==> CardSpec(endpoints[k], base, origin).Some? then
      Some(seq(|endpoints|, k requires 0 <= k < |endpoints| => CardSpec(endpoints[k], base, origin).value))
    else None
  }

  function ListingSpec(origin: string, respond: string -> Reply): Listing {
    var candidates := Candidates(origin);
    match LocateSpec(candidates, respond)
    case NotFound => NoBackend
    case Found(endpoints, base) =>
      var base := if base != "" then base else candidates[0];
      match CardsSpec(endpoints, base, origin)
      case None => RenderFailed
      case Some(cards) => Cards(cards)
  }

  /**
    The `forEach` that appends the cards: one card per endpoint, in order;
    the first endpoint that throws abandons the list.
  */
  method RenderCards(endpoints: seq<Value>, base: string, origin: string) returns (cards: Option<seq<EndpointCard>>)
    ensures cards == CardsSpec(endpoints, base, origin)
  {
    var shown: seq<EndpointCard> := [];
    for i := 0 to |endpoints|
      invariant |shown| == i
      invariant forall k :: 0 <= k < i ==> CardSpec(endpoints[k], base, origin).Some?
      invariant forall k :: 0 <= k < i ==> shown[k] == CardSpec(endpoints[k], base, origin).value
    {
      var card := CardSpec(endpoints[i], base, origin);
      if card.None? {
        assert !(forall k :: 0 <= k < |endpoints| ==> CardSpec(endpoints[k], base, origin).Some?) by {
          assert CardSpec(endpoints[i], base, origin).None?;
        }
        return None;
      }
      shown := shown + [card.value];
    }
    assert CardsSpec(endpoints, base, origin).Some?;
    assert shown == CardsSpec(endpoints, base, origin).value;
    cards := Some(shown);
  }

  /**
    `fetchAndRenderEndpoints`, given the page origin and the network's
    answer for each URL: what the container shows, and the URLs requested.
  */
  method FetchAndRenderEndpoints(origin: string, respond: string -> Reply) returns (listing: Listing, probed: seq<string>)
    ensures listing == ListingSpec(origin, respond)
    ensures probed == ProbedUrls(Candidates(origin), respond)
  {
    var candidates := Candidates(origin);
    var found;
    found, probed := Locate(candidates, respond);
    if found.NotFound? {
      return NoBackend, probed;
    }
    var base := if found.base != "" then found.base else candidates[0];
    var cards := RenderCards(found.endpoints, base, origin);
    listing := if cards.None? then RenderFailed else Cards(cards.value);
  }

  /**
    When no candidate answers with an array, no card is made and the
    no-backend message is shown; when one does, its list is shown from the
    base that answered, one card per endpoint in list order, unless an
    endpoint throws. An empty list shows no card and no message.
  */
  lemma ListingCases(origin: string, respond: string -> Reply)
    ensures var candidates := Candidates(origin);
      var located := LocateSpec(candidates, respond);
      && (located.NotFound? <==> ListingSpec(origin, respond) == NoBackend)
      && (located.Found? ==> located.base in candidates && located.base != "")
      && (located.Found? && CardsSpec(located.endpoints, located.base, origin).Some? ==>
            ListingSpec(origin, respond) == Cards(CardsSpec(located.endpoints, located.base, origin).value))
      && (located.Found? && located.endpoints == [] ==> ListingSpec(origin, respond) == Cards([]))
  {
    CandidatesShape(origin);
  }
}
