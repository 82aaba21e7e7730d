/** The handful of Playwright objects the HMM session code holds on to. They
    carry no state beyond whether they have been shut down; navigation and
    DOM answers are passed to the session code as values. */
module PlaywrightApi {
  import opened Wrappers

  class Playwright {
    var stopped: bool
    constructor () ensures !stopped { stopped := false; }
    method Stop() modifies this ensures stopped { stopped := true; }
  }

  class Browser {
    var closed: bool
    constructor () ensures !closed { closed := false; }
    method Close() modifies this ensures closed { closed := true; }
  }

  class BrowserContext {
    constructor () { }
  }

  class Page {
    constructor () { }
  }

  /** `page.wait_for_selector("meta[name='_csrf']")` followed by
      `get_attribute("content")`: a timeout, or the attribute's value (None
      when the element has no such attribute). */
  datatype DomLookup = DomTimeout | DomAttribute(content: Option<string>)

  /** Python truthiness of an optional string: None and "" are both missing. */
  predicate Present(t: Option<string>)
  {
    t.Some? && t.value != ""
  }
}
