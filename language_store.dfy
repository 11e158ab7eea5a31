/**
 * The interface-language store: the language detected from the browser,
 * the user's explicit choice, and which of the two is current.  The
 * browser is a parameter: `None` when there is no `window` (server-side
 * rendering), else `navigator.language`.
 */
module LanguageStore {
  import opened Wrappers
  import opened JsString

  datatype Language = En | Zh | Ru

  /** `detectBrowserLanguage`: by the prefix of the lower-cased browser language, English by default. */
  function DetectBrowserLanguage(browser: Option<string>): (l: Language)
    ensures browser.None? ==> l == En
    ensures browser.Some? ==>
      && (l == Zh <==> StartsWith(Lower(browser.value), "zh"))
      && (l == Ru <==> StartsWith(Lower(browser.value), "ru"))
      && (l == En <==> !StartsWith(Lower(browser.value), "zh") && !StartsWith(Lower(browser.value), "ru"))
  {
    match browser
    case None => En
    case Some(lang) =>
      var lower := Lower(lang);
      if StartsWith(lower, "zh") then Zh
      else if StartsWith(lower, "ru") then Ru
      else En
  }

  /** The persisted part of the store. */
  datatype LanguageState = LanguageState(language: Language, hasManuallySet: bool)

  /** `getCurrentLanguage`: English without a window, else the manual choice if any, else the detected language. */
  function CurrentLanguage(s: LanguageState, browser: Option<string>): (l: Language)
    ensures browser.None? ==> l == En
    ensures browser.Some? && s.hasManuallySet ==> l == s.language
    ensures !s.hasManuallySet ==> l == DetectBrowserLanguage(browser)
  {
    if browser.None? then En
    else if s.hasManuallySet then s.language
    else DetectBrowserLanguage(browser)
  }

  /** Until the user chooses, the current language follows the browser, even if the store holds another. */
  lemma FollowsBrowserUntilChosen(s: LanguageState, browser: string, other: string)
    requires !s.hasManuallySet
    requires StartsWith(Lower(browser), "ru") && !StartsWith(Lower(other), "ru") && !StartsWith(Lower(other), "zh")
    ensures CurrentLanguage(s, Some(browser)) == Ru
    ensures CurrentLanguage(s, Some(other)) == En
  {
  }

  class Store {
    var language: Language
    var hasManuallySet: bool

    function State(): LanguageState
      reads this
    {
      LanguageState(language, hasManuallySet)
    }

    /** Creation: the detected language, not manually set, then overridden by a persisted state if one exists. */
    constructor(browser: Option<string>, persisted: Option<LanguageState>)
      ensures persisted.None? ==> State() == LanguageState(DetectBrowserLanguage(browser), false)
      ensures persisted.Some? ==> State() == persisted.value
    {
      match persisted {
        case None =>
          language := DetectBrowserLanguage(browser);
          hasManuallySet := false;
        case Some(p) =>
          language := p.language;
          hasManuallySet := p.hasManuallySet;
      }
    }

    /** `setLanguage`: records the choice and marks it manual; from then on it is the current language in a browser. */
    method SetLanguage(l: Language)
      modifies this
      ensures State() == LanguageState(l, true)
      ensures forall b :: CurrentLanguage(State(), Some(b)) == l
    {
      language := l;
      hasManuallySet := true;
    }
  }
}
