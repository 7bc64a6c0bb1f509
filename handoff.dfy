/**
  The session-storage key `apiToTest` that carries an endpoint URL from a
  "Test API" button on the docs page (docs.js) to the explorer page
  (script.js), which reads it once on load and clears it.
*/
module Handoff {
  import opened Wrappers

  /** What a click on a test button does: the slot afterwards, and whether the page navigates to the explorer. */
  datatype ClickEffect = ClickEffect(stored: Option<string>, navigate: bool)

  /** What the explorer does with the slot on load: the URL to prefill and fetch, and the slot afterwards. */
  datatype LoadEffect = LoadEffect(prefill: Option<string>, stored: Option<string>)

  /**
    `handleTestButtonClick`: the button's `data-url` attribute (`None` when
    the attribute is missing) is stored and the page navigates, but only
    when the attribute is a non-empty string.
  */
  function TestButtonClick(dataUrl: Option<string>, stored: Option<string>): (r: ClickEffect)
    ensures r.navigate <==> dataUrl.Some? && dataUrl.value != ""
    ensures r.navigate ==> r.stored == dataUrl
    ensures !r.navigate ==> r.stored == stored
  {
    if dataUrl.Some? && dataUrl.value != "" then ClickEffect(dataUrl, true) else ClickEffect(stored, false)
  }

  /**
    The explorer's start-up hand-off: a stored non-empty URL is taken as
    the input to fetch and the key is removed; an absent or empty value is
    ignored and left in place.
  */
  function TakeOnLoad(stored: Option<string>): (r: LoadEffect)
    ensures r.prefill.Some? <==> stored.Some? && stored.value != ""
    ensures r.prefill.Some? ==> r.prefill == stored && r.stored == None
    ensures r.prefill.None? ==> r.stored == stored
  {
    if stored.Some? && stored.value != "" then LoadEffect(stored, None) else LoadEffect(None, stored)
  }

  /**
    A click on a button with a URL makes the next explorer load fetch
    exactly that URL, whatever was stored before, and the load after that
    fetches nothing: the hand-off is consumed once.
  */
  lemma HandoffDeliveredOnce(url: string, before: Option<string>)
    requires url != ""
    ensures var click := TestButtonClick(Some(url), before);
      var first := TakeOnLoad(click.stored);
      && click.navigate
      && first.prefill == Some(url)
      && TakeOnLoad(first.stored).prefill == None
  {
  }
}
