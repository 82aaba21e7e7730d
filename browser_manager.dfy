/** Model of backend/services/browser_manager.py: the persistent browser
    (`BrowserManager`) that the HMM batch driver shares, with its
    `is_initialized` flag and the HMM token it refreshes. */
module BrowserManagement {
  import opened Wrappers
  import opened PlaywrightApi

  /** What the world answers during one `refresh_hmm_session`: whether
      `page.goto` returned, and the DOM lookup that follows it. */
  datatype RefreshEnv = RefreshEnv(navigated: bool, dom: DomLookup)

  /** The token after one refresh, given the one before and whether there is
      a page to navigate. An attribute value overwrites the token, even a
      missing one (the `[:10]` in the log line then raises, but the
      assignment has happened); every failure leaves the token as it was. */
  function RefreshedToken(prev: Option<string>, hasPage: bool, env: RefreshEnv): (r: Option<string>)
    ensures hasPage && env.navigated && env.dom.DomAttribute? ==> r == env.dom.content
    ensures !(hasPage && env.navigated && env.dom.DomAttribute?) ==> r == prev
  {
    if !hasPage || !env.navigated then prev
    else match env.dom
      case DomAttribute(v) => v
      case DomTimeout => prev
  }

  /** A refresh that yields a usable token got it from the DOM attribute, or
      already had it before. */
  lemma RefreshedTokenSource(prev: Option<string>, hasPage: bool, env: RefreshEnv)
    requires Present(RefreshedToken(prev, hasPage, env))
    ensures RefreshedToken(prev, hasPage, env) == prev
         || (env.dom == DomAttribute(RefreshedToken(prev, hasPage, env)) && hasPage && env.navigated)
  {
  }

  class BrowserManager {
    var playwright: Playwright?
    var browser: Browser?
    var context: BrowserContext?
    var page: Page?
    var hmmToken: Option<string>
    var isInitialized: bool
    /** Browsers launched and token refreshes run, for stating how often each happens. */
    ghost var launches: nat
    ghost var refreshes: nat

    /** `__init__`. */
    constructor ()
      ensures playwright == null && browser == null && context == null && page == null
      ensures hmmToken == None && !isInitialized
      ensures launches == 0 && refreshes == 0
      ensures Valid()
    {
      playwright, browser, context, page := null, null, null, null;
      hmmToken, isInitialized := None, false;
      launches, refreshes := 0, 0;
    }

    /** Once initialised, every handle is set; until then there is no page. */
    predicate Valid()
      reads this
    {
      (isInitialized ==> playwright != null && browser != null && context != null && page != null)
      && (!isInitialized ==> page == null)
    }

    /** `refresh_hmm_session`: navigate the current page and read the token. */
    method Refresh(env: RefreshEnv)
      modifies this
      ensures hmmToken == RefreshedToken(old(hmmToken), old(page) != null, env)
      ensures refreshes == old(refreshes) + 1
      ensures playwright == old(playwright) && browser == old(browser) && context == old(context)
      ensures page == old(page) && isInitialized == old(isInitialized) && launches == old(launches)
    {
      refreshes := refreshes + 1;
      if page == null || !env.navigated {
        return;
      }
      match env.dom
      case DomAttribute(v) =>
        hmmToken := v;
      case DomTimeout =>
    }

    /** `initialize`: a no-op once initialised; otherwise one launch, the flag
      set, then one refresh. The flag is set before the refresh, so it stays
      set however the refresh ends. */
    method Initialize(env: RefreshEnv)
      requires Valid()
      modifies this
      ensures Valid()
      ensures old(isInitialized) ==>
        && playwright == old(playwright) && browser == old(browser) && context == old(context)
        && page == old(page) && hmmToken == old(hmmToken) && isInitialized
        && launches == old(launches) && refreshes == old(refreshes)
      ensures !old(isInitialized) ==>
        && fresh(playwright) && fresh(browser) && fresh(context) && fresh(page)
        && !browser.closed && !playwright.stopped && isInitialized
        && hmmToken == RefreshedToken(old(hmmToken), true, env)
        && launches == old(launches) + 1 && refreshes == old(refreshes) + 1
    {
      if isInitialized {
        return;
      }
      playwright := new Playwright();
      browser := new Browser();
      context := new BrowserContext();
      page := new Page();
      launches := launches + 1;
      isInitialized := true;
      Refresh(env);
    }

    /** `get_page`: initialises only when not yet initialised, and hands back `page`. */
    method GetPage(env: RefreshEnv) returns (p: Page)
      requires Valid()
      modifies this
      ensures Valid() && isInitialized && p == page
      ensures old(isInitialized) ==>
        && page == old(page) && browser == old(browser) && playwright == old(playwright)
        && hmmToken == old(hmmToken) && launches == old(launches) && refreshes == old(refreshes)
      ensures !old(isInitialized) ==>
        && fresh(page) && fresh(browser) && fresh(playwright)
        && hmmToken == RefreshedToken(old(hmmToken), true, env)
        && launches == old(launches) + 1 && refreshes == old(refreshes) + 1
    {
      Initialize(env);
      p := page;
    }

    /** `close`: shuts the browser and playwright down and changes none of
      the manager's own fields. */
    method Close()
      modifies browser, playwright
      ensures browser != null ==> browser.closed
      ensures playwright != null ==> playwright.stopped
    {
      if browser != null {
        browser.Close();
      }
      if playwright != null {
        playwright.Stop();
      }
    }
  }

  /** The class attribute `_instance` behind `BrowserManager.get_instance`. */
  class ManagerSlot {
    var instance: BrowserManager?

    constructor ()
      ensures instance == null
    {
      instance := null;
    }

    method GetInstance() returns (m: BrowserManager)
      modifies this
      ensures instance == m
      ensures old(instance) != null ==> m == old(instance)
      ensures old(instance) == null ==> fresh(m) && !m.isInitialized && m.hmmToken == None && m.Valid()
    {
      if instance == null {
        instance := new BrowserManager();
      }
      m := instance;
    }
  }

  /** `get_page`, `close`, `get_page`: the second `get_page` does not
      re-initialise. It returns the same (now closed) page, and the token,
      the launches and the refreshes are those the first call left, whatever
      the second call's world would have answered. */
  method CloseThenGetPage(m: BrowserManager, e1: RefreshEnv, e2: RefreshEnv) returns (p1: Page, p2: Page)
    requires m.Valid()
    modifies m, m.browser, m.playwright
    ensures p1 == p2 && m.page == p1
    ensures m.browser != null && m.browser.closed
    ensures m.isInitialized
    ensures m.hmmToken == (if old(m.isInitialized) then old(m.hmmToken) else RefreshedToken(old(m.hmmToken), true, e1))
    ensures m.launches == old(m.launches) + (if old(m.isInitialized) then 0 else 1)
    ensures m.refreshes == old(m.refreshes) + (if old(m.isInitialized) then 0 else 1)
  {
    p1 := m.GetPage(e1);
    m.Close();
    p2 := m.GetPage(e2);
  }
}
