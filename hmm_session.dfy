/** Model of backend/services/hmm_session.py: the persistent HMM session
    (`HMMSession`) as a class over nullable fields, its class-level singleton,
    and the regular-expression fallback that digs the CSRF token out of the
    page's HTML. The browser objects are empty classes; navigation, the DOM
    lookup, the page's HTML and the in-page fetch are oracle values. */
module HmmSession {
  import opened Strings
  import opened Wrappers
  import opened PlaywrightApi

  // ---------------------------------------------------------------------
  // The token scan: re.search(r'name="_csrf"\s+content="([^"]+)"', html)
  // ---------------------------------------------------------------------

  /** Python's `\s` for str patterns: the characters `str.isspace` accepts. */
  predicate IsRegexSpace(c: char)
  {
    c == ' ' || ('\t' <= c <= '\r') || ('\U{001C}' <= c <= '\U{001F}') || c == '\U{0085}'
    || c == '\U{00A0}' || c == '\U{1680}' || ('\U{2000}' <= c <= '\U{200A}') || c == '\U{2028}'
    || c == '\U{2029}' || c == '\U{202F}' || c == '\U{205F}' || c == '\U{3000}'
  }

  const NameAttr := "name=\"_csrf\""
  const ContentAttr := "content=\""

  /** The text the pattern matches: name="_csrf", whitespace, content="<token>". */
  function Tag(ws: string, token: string): string
  {
    NameAttr + ws + ContentAttr + token + "\""
  }

  predicate AllSpaces(ws: string)
  {
    forall k :: 0 <= k < |ws| ==> IsRegexSpace(ws[k])
  }

  /** The pattern matches at index i with this whitespace run and this group. */
  predicate TagAt(h: string, i: int, ws: string, token: string)
  {
    ws != [] && AllSpaces(ws) && token != [] && '"' !in token && OccursAt(h, Tag(ws, token), i)
  }

  /** End of the whitespace run that starts at j. */
  function SpaceRunEnd(h: string, j: nat): (k: nat)
    requires j <= |h|
    ensures j <= k <= |h|
    ensures forall m :: j <= m < k ==> IsRegexSpace(h[m])
    ensures k < |h| ==> !IsRegexSpace(h[k])
    decreases |h| - j
  {
    if j < |h| && IsRegexSpace(h[j]) then SpaceRunEnd(h, j + 1) else j
  }

  /** Index of the first '"' at or after j, or |h|. */
  function QuoteFrom(h: string, j: nat): (k: nat)
    requires j <= |h|
    ensures j <= k <= |h|
    ensures forall m :: j <= m < k ==> h[m] != '"'
    ensures k < |h| ==> h[k] == '"'
    decreases |h| - j
  {
    if j < |h| && h[j] != '"' then QuoteFrom(h, j + 1) else j
  }

  /** The match attempt at index i (the regex admits at most one match there). */
  function MatchAt(h: string, i: nat): Option<string>
    requires i <= |h|
  {
    if !OccursAt(h, NameAttr, i) then None
    else
      var j := i + |NameAttr|;
      var k := SpaceRunEnd(h, j);
      if k == j || !OccursAt(h, ContentAttr, k) then None
      else
        var v := k + |ContentAttr|;
        var e := QuoteFrom(h, v);
        if e == v || e == |h| then None else Some(h[v..e])
  }

  /** A match found is a real occurrence of the pattern, with a non-empty
      token free of '"'. */
  lemma MatchAtSound(h: string, i: nat)
    requires i <= |h| && MatchAt(h, i).Some?
    ensures exists ws :: TagAt(h, i, ws, MatchAt(h, i).value)
  {
    var j := i + |NameAttr|;
    var k := SpaceRunEnd(h, j);
    var v := k + |ContentAttr|;
    var e := QuoteFrom(h, v);
    MatchAtParts(h, i);
    TagFromParts(h, i, j, k, v, e);
  }

  /** What a successful attempt has checked, index by index. */
  lemma MatchAtParts(h: string, i: nat)
    requires i <= |h| && MatchAt(h, i).Some?
    ensures var j := i + |NameAttr|; var k := SpaceRunEnd(h, j);
      var v := k + |ContentAttr|; var e := QuoteFrom(h, v);
      && OccursAt(h, NameAttr, i) && j < k && OccursAt(h, ContentAttr, k)
      && v < e < |h| && MatchAt(h, i) == Some(h[v..e])
  {
  }

  /** The checked pieces assemble into an occurrence of the pattern. */
  lemma TagFromParts(h: string, i: nat, j: nat, k: nat, v: nat, e: nat)
    requires OccursAt(h, NameAttr, i) && j == i + |NameAttr| && j < k
    requires OccursAt(h, ContentAttr, k) && v == k + |ContentAttr| && v < e < |h|
    requires forall m :: j <= m < k ==> IsRegexSpace(h[m])
    requires forall m :: v <= m < e ==> h[m] != '"'
    requires h[e] == '"'
    ensures TagAt(h, i, h[j..k], h[v..e])
  {
    var ws, t := h[j..k], h[v..e];
    assert OccursAt(h, "\"", e) by { assert h[e..e + 1][0] == '"'; }
    OccursJoin(h, NameAttr, ws, i);
    OccursJoin(h, NameAttr + ws, ContentAttr, i);
    OccursJoin(h, NameAttr + ws + ContentAttr, t, i);
    OccursJoin(h, NameAttr + ws + ContentAttr + t, "\"", i);
    assert AllSpaces(ws) by {
      forall m | 0 <= m < |ws| ensures IsRegexSpace(ws[m]) {
        assert ws[m] == h[j + m];
      }
    }
    assert '"' !in t by {
      forall m | 0 <= m < |t| ensures t[m] != '"' {
        assert t[m] == h[v + m];
      }
    }
  }

  /** Occurrences side by side make an occurrence of the concatenation. */
  lemma OccursJoin(h: string, a: string, b: string, i: int)
    requires OccursAt(h, a, i) && OccursAt(h, b, i + |a|)
    ensures OccursAt(h, a + b, i)
  {
    assert h[i..i + |a| + |b|] == h[i..i + |a|] + h[i + |a|..i + |a| + |b|];
  }

  /** A run of spaces followed by a non-space is the run `SpaceRunEnd` finds. */
  lemma SpaceRunOf(h: string, j: nat, ws: string)
    requires OccursAt(h, ws, j) && AllSpaces(ws)
    requires j + |ws| < |h| && !IsRegexSpace(h[j + |ws|])
    ensures SpaceRunEnd(h, j) == j + |ws|
  {
    forall m | j <= m < j + |ws| ensures IsRegexSpace(h[m]) {
      assert h[m] == h[j..j + |ws|][m - j];
    }
  }

  /** A quote-free stretch ended by '"' is the one `QuoteFrom` finds. */
  lemma QuoteRunOf(h: string, v: nat, t: string)
    requires OccursAt(h, t, v) && '"' !in t
    requires v + |t| < |h| && h[v + |t|] == '"'
    ensures QuoteFrom(h, v) == v + |t|
  {
    forall m | v <= m < v + |t| ensures h[m] != '"' {
      assert h[m] == h[v..v + |t|][m - v];
    }
  }

  /** Every occurrence of the pattern is found by the attempt at its index. */
  lemma MatchAtComplete(h: string, i: nat, ws: string, t: string)
    requires TagAt(h, i, ws, t)
    ensures i <= |h| && MatchAt(h, i) == Some(t)
  {
    var j := i + |NameAttr|;
    var k := j + |ws|;
    var v := k + |ContentAttr|;
    var e := v + |t|;
    OccursConcat(h, NameAttr + ws + ContentAttr + t, "\"", i);
    OccursConcat(h, NameAttr + ws + ContentAttr, t, i);
    OccursConcat(h, NameAttr + ws, ContentAttr, i);
    OccursConcat(h, NameAttr, ws, i);
    assert h[k] == 'c' by { assert h[k..v][0] == ContentAttr[0]; }
    SpaceRunOf(h, j, ws);
    assert h[e] == '"' by { assert h[e..e + 1][0] == '"'; }
    QuoteRunOf(h, v, t);
    MatchAtOfParts(h, i, k, v, e);
  }

  /** The attempt at i succeeds on the pieces it checks. */
  lemma MatchAtOfParts(h: string, i: nat, k: nat, v: nat, e: nat)
    requires OccursAt(h, NameAttr, i)
    requires SpaceRunEnd(h, i + |NameAttr|) == k && i + |NameAttr| < k
    requires OccursAt(h, ContentAttr, k) && v == k + |ContentAttr|
    requires QuoteFrom(h, v) == e && v < e < |h|
    ensures MatchAt(h, i) == Some(h[v..e])
  {
  }

  /** The parts of an occurrence of a concatenation occur side by side. */
  lemma OccursConcat(h: string, a: string, b: string, i: int)
    requires OccursAt(h, a + b, i)
    ensures OccursAt(h, a, i) && OccursAt(h, b, i + |a|)
  {
    assert h[i..i + |a|] == (a + b)[..|a|];
    assert h[i + |a|..i + |a| + |b|] == (a + b)[|a|..];
  }

  /** Leftmost-first search, as `re.search` does: the first index from `i`
      on where an attempt succeeds. */
  function SearchFrom(h: string, i: nat): (r: Option<nat>)
    requires i <= |h|
    ensures r.Some? ==> i <= r.value <= |h| && MatchAt(h, r.value).Some?
                        && forall q :: i <= q < r.value ==> MatchAt(h, q).None?
    ensures r.None? ==> forall p :: i <= p <= |h| ==> MatchAt(h, p).None?
    decreases |h| - i
  {
    if MatchAt(h, i).Some? then Some(i)
    else if i == |h| then None
    else SearchFrom(h, i + 1)
  }

  /** `match.group(1)` of `re.search`, or None. */
  function ScanCsrf(h: string): Option<string>
  {
    match SearchFrom(h, 0)
    case Some(p) => MatchAt(h, p)
    case None => None
  }

  /** The fallback finds a token exactly when the HTML holds the pattern;
      what it finds is non-empty, has no '"', stands in the HTML as
      name="_csrf", whitespace, content="<token>", and no occurrence of the
      pattern starts further left. */
  lemma ScanCsrfCorrect(h: string)
    ensures ScanCsrf(h).Some? ==>
      exists i, ws :: 0 <= i <= |h| && TagAt(h, i, ws, ScanCsrf(h).value)
        && forall q, ws', t' :: 0 <= q < i ==> !TagAt(h, q, ws', t')
    ensures (exists i, ws, t :: TagAt(h, i, ws, t)) ==> ScanCsrf(h).Some?
  {
    if ScanCsrf(h).Some? {
      var p := SearchFrom(h, 0).value;
      MatchAtSound(h, p);
      var ws :| TagAt(h, p, ws, MatchAt(h, p).value);
      forall q, ws', t' | 0 <= q < p ensures !TagAt(h, q, ws', t') {
        if TagAt(h, q, ws', t') {
          MatchAtComplete(h, q, ws', t');
        }
      }
    }
    if exists i, ws, t :: TagAt(h, i, ws, t) {
      var i, ws, t :| TagAt(h, i, ws, t);
      MatchAtComplete(h, i, ws, t);
    }
  }

  // ---------------------------------------------------------------------
  // start() token acquisition
  // ---------------------------------------------------------------------

  /** What the world answers during one `start`: whether `page.goto` returned,
      the DOM lookup, and `page.content()` (None when it raised). */
  datatype StartEnv = StartEnv(navigated: bool, dom: DomLookup, html: Option<string>)

  /** The regex fallback applied to the current token. */
  function Fallback(current: Option<string>, html: Option<string>): Option<string>
  {
    if html.None? then current
    else match ScanCsrf(html.value)
      case Some(t) => Some(t)
      case None => current
  }

  /** The token after the navigation block of `start`, given the one before.
      A missing attribute sets the token to None and then the `[:10]` slice
      raises, which sends control to the fallback. */
  function AcquireToken(prev: Option<string>, env: StartEnv): (r: Option<string>)
    ensures !env.navigated ==> r == prev
    ensures env.navigated && env.dom.DomAttribute? && env.dom.content.Some? ==> r == env.dom.content
  {
    if !env.navigated then prev
    else match env.dom
      case DomAttribute(Some(t)) => Some(t)
      case DomAttribute(None) => Fallback(None, env.html)
      case DomTimeout => Fallback(prev, env.html)
  }

  /** The regex runs only when the DOM lookup failed, and a token it
      contributes occurs in the HTML in the pattern's shape. */
  lemma AcquireTokenFallback(prev: Option<string>, env: StartEnv)
    requires env.navigated && AcquireToken(prev, env) != prev
    requires !(env.dom.DomAttribute? && env.dom.content.Some?)
    ensures (env.html.Some? && ScanCsrf(env.html.value) == AcquireToken(prev, env))
      || (env.dom == DomAttribute(None) && AcquireToken(prev, env) == None)
    ensures AcquireToken(prev, env).Some? ==>
      exists i, ws :: 0 <= i <= |env.html.value| && TagAt(env.html.value, i, ws, AcquireToken(prev, env).value)
  {
    if AcquireToken(prev, env).Some? {
      ScanCsrfCorrect(env.html.value);
    }
  }

  // ---------------------------------------------------------------------
  // The session object
  // ---------------------------------------------------------------------

  /** The in-page `fetch` of `fetch_data`: it answers a text for the token it
      is given (None is sent as JSON null) and for the container list. */
  type Evaluate = (Option<string>, seq<string>) -> string

  class HmmSession {
    var playwright: Playwright?
    var browser: Browser?
    var context: BrowserContext?
    var page: Page?
    var csrfToken: Option<string>
    var cookieHeader: Option<string>
    /** Number of browsers this session has launched. */
    ghost var launches: nat

    /** `__init__`: every field None. */
    constructor ()
      ensures playwright == null && browser == null && context == null && page == null
      ensures csrfToken == None && cookieHeader == None
      ensures launches == 0
    {
      playwright, browser, context, page := null, null, null, null;
      csrfToken, cookieHeader := None, None;
      launches := 0;
    }

    /** `if not self.csrf_token`. */
    predicate HasToken()
      reads this
    {
      Present(csrfToken)
    }

    /** A browser always comes with a page (start sets both, close keeps the page). */
    predicate Valid()
      reads this
    {
      browser != null ==> page != null && context != null && playwright != null
    }

    /** `start`: a no-op while a browser is held; otherwise launches one
      browser, context and page, then tries to read the token. */
    method Start(env: StartEnv)
      requires Valid()
      modifies this
      ensures Valid()
      ensures old(browser) != null ==>
        && browser == old(browser) && page == old(page) && context == old(context)
        && playwright == old(playwright) && csrfToken == old(csrfToken) && launches == old(launches)
      ensures old(browser) == null ==>
        && fresh(playwright) && fresh(browser) && fresh(context) && fresh(page)
        && !browser.closed && !playwright.stopped
        && csrfToken == AcquireToken(old(csrfToken), env)
        && launches == old(launches) + 1
      ensures cookieHeader == old(cookieHeader)
    {
      if browser != null {
        return;
      }
      playwright := new Playwright();
      browser := new Browser();
      context := new BrowserContext();
      page := new Page();
      launches := launches + 1;
      if env.navigated {
        match env.dom
        case DomAttribute(Some(t)) =>
          csrfToken := Some(t);
        case DomAttribute(None) =>
          csrfToken := None;
          csrfToken := Fallback(csrfToken, env.html);
        case DomTimeout =>
          csrfToken := Fallback(csrfToken, env.html);
      }
    }

    /** `close`: closes the browser and stops playwright if present, then
      clears `browser` and `csrf_token`; `page`, `context` and `playwright`
      keep their (now dead) values. */
    method Close()
      requires Valid()
      modifies this, browser, playwright
      ensures Valid()
      ensures browser == null && csrfToken == None
      ensures page == old(page) && context == old(context) && playwright == old(playwright)
      ensures cookieHeader == old(cookieHeader) && launches == old(launches)
      ensures old(browser) != null ==> old(browser).closed
      ensures old(playwright) != null ==> old(playwright).stopped
    {
      if browser != null {
        browser.Close();
      }
      if playwright != null {
        playwright.Stop();
      }
      browser := null;
      csrfToken := None;
    }

    /** `fetch_data`: one close-then-start when the page or the token is
      missing, then the in-page request with whatever token is current, with
      no second check. */
    method FetchData(container: string, env: StartEnv, evaluate: Evaluate) returns (reply: string)
      requires Valid()
      modifies this, browser, playwright
      ensures Valid() && page != null
      ensures reply == evaluate(csrfToken, [container])
      ensures old(page) != null && old(HasToken()) ==>
        browser == old(browser) && csrfToken == old(csrfToken) && launches == old(launches)
      ensures !(old(page) != null && old(HasToken())) ==>
        fresh(browser) && csrfToken == AcquireToken(None, env) && launches == old(launches) + 1
    {
      if page == null || !HasToken() {
        Close();
        Start(env);
      }
      reply := evaluate(csrfToken, [container]);
    }
  }

  /** The class attribute `_instance` behind `HMMSession.get_instance`. */
  class SessionSlot {
    var instance: HmmSession?

    constructor ()
      ensures instance == null
    {
      instance := null;
    }

    /** Creates the session on the first call only, then always hands back the same object. */
    method GetInstance() returns (s: HmmSession)
      modifies this
      ensures instance == s
      ensures old(instance) != null ==> s == old(instance)
      ensures old(instance) == null ==>
        && fresh(s) && s.browser == null && s.page == null && s.csrfToken == None && s.Valid()
    {
      if instance == null {
        instance := new HmmSession();
      }
      s := instance;
    }
  }

  /** Two `get_instance` calls give one object. */
  method SingletonClient(slot: SessionSlot) returns (a: HmmSession, b: HmmSession)
    modifies slot
    ensures a == b
  {
    a := slot.GetInstance();
    b := slot.GetInstance();
  }

  /** `start`, `start`, `close`, `start`: the second `start` launches
      nothing, so the first two together launch one browser at most (none if
      one was already held); after `close`, the third `start` launches a fresh
      browser and reads a new token. */
  method LifecycleClient(s: HmmSession, e1: StartEnv, e2: StartEnv, e3: StartEnv)
    requires s.Valid()
    modifies s, s.browser, s.playwright
    ensures s.launches == old(s.launches) + (if old(s.browser) == null then 1 else 0) + 1
    ensures fresh(s.browser) && !s.browser.closed
    ensures s.csrfToken == AcquireToken(None, e3)
  {
    s.Start(e1);
    s.Start(e2);
    s.Close();
    s.Start(e3);
  }
}
