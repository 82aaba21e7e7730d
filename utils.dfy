/** Model of backend/services/utils.py: `human_type`, the typing loop that
    checks what the field holds and retries, and `kill_cookie_banners`, which
    clicks the first visible consent button. The page is replaced by the
    answers it gives: one per typing attempt, one per selector probed. */
module PageUtils {
  import opened Strings
  import opened Wrappers

  // ---------------------------------------------------------------------
  // human_type
  // ---------------------------------------------------------------------

  /** `range(3)`. */
  const MaxAttempts := 3

  /** How one attempt ends: an exception somewhere in click/fill/type/read,
      or the value `input_value()` read back. */
  datatype Attempt = Raised | Read(value: string)

  /** The comparison form: spaces and dashes removed, then upper-cased. */
  function Normalize(s: string): (r: string)
    ensures |s| == 1 ==> r == (if s[0] == ' ' || s[0] == '-' then [] else [UpperChar(s[0])])
  {
    Upper(RemoveChar(RemoveChar(s, ' '), '-'))
  }

  /** Normalising works character by character: it distributes over
      concatenation, so every character other than a space or a dash is
      kept, upper-cased, in its original order. */
  lemma NormalizeAppend(a: string, b: string)
    ensures Normalize(a + b) == Normalize(a) + Normalize(b)
  {
    RemoveCharAppend(a, b, ' ');
    RemoveCharAppend(RemoveChar(a, ' '), RemoveChar(b, ' '), '-');
    UpperAppend(RemoveChar(RemoveChar(a, ' '), '-'), RemoveChar(RemoveChar(b, ' '), '-'));
  }

  /** The comparison form has no spaces, no dashes and no lower-case letters. */
  lemma NormalizeShape(s: string)
    ensures ' ' !in Normalize(s) && '-' !in Normalize(s)
    ensures forall i :: 0 <= i < |Normalize(s)| ==> !IsLower(Normalize(s)[i])
  {
    var t := RemoveChar(RemoveChar(s, ' '), '-');
    var r := Upper(t);
    assert forall i :: 0 <= i < |r| ==> r[i] == UpperChar(t[i]);
    assert forall x :: x in r ==> exists i :: 0 <= i < |r| && r[i] == x;
  }

  /** Normalising twice changes nothing more. */
  lemma NormalizeIdempotent(s: string)
    ensures Normalize(Normalize(s)) == Normalize(s)
  {
    var n := Normalize(s);
    NormalizeShape(s);
    assert RemoveChar(n, ' ') == n;
    assert RemoveChar(n, '-') == n;
    UpperNoOp(n);
  }

  /** An attempt succeeds when it read back a value equal to the target once
      both are normalised. */
  predicate Matches(text: string, a: Attempt)
  {
    a.Read? && Normalize(a.value) == Normalize(text)
  }

  /** The index of the first successful attempt, if any. */
  function FirstMatch(text: string, outs: seq<Attempt>): (r: Option<nat>)
    ensures r.Some? ==> r.value < |outs| && Matches(text, outs[r.value])
                        && forall j :: 0 <= j < r.value ==> !Matches(text, outs[j])
    ensures r.None? ==> forall j :: 0 <= j < |outs| ==> !Matches(text, outs[j])
  {
    if outs == [] then None
    else if Matches(text, outs[0]) then Some(0)
    else match FirstMatch(text, outs[1..])
      case None => None
      case Some(k) => Some(k + 1)
  }

  /** The `fill("")` clears made by the first `n` attempts: one for each
      that ran to the end; an attempt that raised is not credited with any. */
  function Clears(outs: seq<Attempt>, n: nat): (r: seq<string>)
    requires n <= |outs|
    ensures |r| <= n
  {
    if n == 0 then [] else Clears(outs, n - 1) + (if outs[n - 1].Read? then [""] else [])
  }

  /** None of the first `n` attempts succeeded. */
  predicate NoMatchBefore(text: string, outs: seq<Attempt>, n: nat)
    requires n <= |outs|
  {
    n == 0 || (NoMatchBefore(text, outs, n - 1) && !Matches(text, outs[n - 1]))
  }

  lemma {:induction false} NoMatchBeforeMeans(text: string, outs: seq<Attempt>, n: nat)
    requires n <= |outs| && NoMatchBefore(text, outs, n)
    ensures forall j :: 0 <= j < n ==> !Matches(text, outs[j])
  {
    if n > 0 {
      NoMatchBeforeMeans(text, outs, n - 1);
    }
  }

  /** The first success is unique. */
  lemma FirstMatchAt(text: string, outs: seq<Attempt>, k: nat)
    requires k < |outs| && Matches(text, outs[k]) && NoMatchBefore(text, outs, k)
    ensures FirstMatch(text, outs) == Some(k)
  {
    NoMatchBeforeMeans(text, outs, k);
  }

  lemma FirstMatchNone(text: string, outs: seq<Attempt>)
    requires NoMatchBefore(text, outs, |outs|)
    ensures FirstMatch(text, outs) == None
  {
    NoMatchBeforeMeans(text, outs, |outs|);
  }

  /** The located input field. */
  class Element {
    var value: string
    /** The arguments of every `fill` call, in order. */
    var fills: seq<string>

    constructor (v: string)
      ensures value == v && fills == []
    {
      value, fills := v, [];
    }

    method Fill(s: string)
      modifies this
      ensures value == s && fills == old(fills) + [s]
    {
      value := s;
      fills := fills + [s];
    }
  }

  /** One pass of the loop body: clear, type, read back and compare; an
      exception ends the pass with no match. */
  method TryOnce(el: Element, text: string, a: Attempt) returns (ok: bool)
    modifies el
    ensures ok == Matches(text, a)
    ensures el.fills == old(el.fills) + (if a.Read? then [""] else [])
    ensures el.value == (if a.Read? then a.value else old(el.value))
  {
    match a
    case Raised =>
      ok := false;
    case Read(v) =>
      el.Fill("");
      el.value := v;
      ok := Normalize(v) == Normalize(text);
  }

  /** `human_type(page, selector, text)`, attempt `k` answering `outs[k]`.
      It stops at the first matching attempt; after three misses it fills the
      text in one go, exactly once. */
  method HumanType(el: Element, text: string, outs: seq<Attempt>) returns (attempts: nat)
    requires |outs| == MaxAttempts
    modifies el
    ensures 1 <= attempts <= MaxAttempts
    ensures FirstMatch(text, outs).Some? ==>
      && attempts == FirstMatch(text, outs).value + 1
      && el.fills == old(el.fills) + Clears(outs, attempts)
      && el.value == outs[attempts - 1].value
    ensures FirstMatch(text, outs).None? ==>
      && attempts == MaxAttempts
      && el.fills == old(el.fills) + Clears(outs, MaxAttempts) + [text]
      && el.value == text
  {
    var found := TypeUntilMatch(el, text, outs);
    if found.Some? {
      attempts := found.value + 1;
    } else {
      el.Fill(text);
      attempts := MaxAttempts;
    }
  }

  /** The `for attempt in range(3)` loop of `human_type`: it returns at the
      first attempt that matches, having cleared the field once per attempt
      that got that far. */
  method TypeUntilMatch(el: Element, text: string, outs: seq<Attempt>) returns (found: Option<nat>)
    modifies el
    ensures found == FirstMatch(text, outs)
    ensures el.fills == old(el.fills) + Clears(outs, if found.Some? then found.value + 1 else |outs|)
    ensures found.Some? ==> el.value == outs[found.value].value
  {
    for attempt := 0 to |outs|
      invariant NoMatchBefore(text, outs, attempt)
      invariant el.fills == old(el.fills) + Clears(outs, attempt)
    {
      var ok := TryOnce(el, text, outs[attempt]);
      AppendAssoc(old(el.fills), Clears(outs, attempt), if outs[attempt].Read? then [""] else []);
      if ok {
        FirstMatchAt(text, outs, attempt);
        return Some(attempt);
      }
    }
    FirstMatchNone(text, outs);
    found := None;
  }

  /** Regrouping the fill log; the loop invariant needs it spelled out. */
  lemma AppendAssoc<T>(a: seq<T>, b: seq<T>, c: seq<T>)
    ensures (a + b) + c == a + (b + c)
  {
  }

  // ---------------------------------------------------------------------
  // kill_cookie_banners
  // ---------------------------------------------------------------------

  /** The consent buttons tried, in order. */
  const CookieSelectors: seq<string> := [
    "#onetrust-accept-btn-handler",
    "button:has-text('Accept All')",
    "button:has-text('Allow all')",
    "button:has-text('I Agree')",
    "button:has-text('Agree')",
    ".cc-btn.cc-accept"]

  /** `is_visible(timeout=2000)` on a selector's first match, or an exception. */
  datatype Probe = Visible | Hidden | ProbeRaised

  /** The selector the loop clicks: the first visible one, unless a probe
      raises before any is found (the outer `except` then ends the call). */
  function FirstVisible(sels: seq<string>, probe: string -> Probe): (r: Option<nat>)
    ensures r.Some? ==> r.value < |sels| && probe(sels[r.value]) == Visible
                        && forall j :: 0 <= j < r.value ==> probe(sels[j]) == Hidden
    ensures r.None? ==> forall j :: 0 <= j < |sels| ==>
                          (probe(sels[j]) != Visible || exists m :: 0 <= m < j && probe(sels[m]) == ProbeRaised)
  {
    if sels == [] then None
    else match probe(sels[0])
      case Visible => Some(0)
      case ProbeRaised => None
      case Hidden =>
        match FirstVisible(sels[1..], probe)
        case None => None
        case Some(k) => Some(k + 1)
  }

  /** The page, as far as the banner killer touches it. */
  class BannerPage {
    /** The selectors clicked, in order. */
    var clicks: seq<string>

    constructor ()
      ensures clicks == []
    {
      clicks := [];
    }
  }

  /** `kill_cookie_banners(page)`: clicks at most one element, the first
      visible selector, and never lets an exception out. */
  method KillCookieBanners(page: BannerPage, probe: string -> Probe) returns (clicked: Option<string>)
    modifies page
    ensures FirstVisible(CookieSelectors, probe).None? ==> clicked == None && page.clicks == old(page.clicks)
    ensures FirstVisible(CookieSelectors, probe).Some? ==>
      && clicked == Some(CookieSelectors[FirstVisible(CookieSelectors, probe).value])
      && page.clicks == old(page.clicks) + [clicked.value]
  {
    clicked := ClickFirstVisible(page, CookieSelectors, probe);
  }

  /** The loop of `kill_cookie_banners` over a list of selectors. */
  method ClickFirstVisible(page: BannerPage, sels: seq<string>, probe: string -> Probe) returns (clicked: Option<string>)
    modifies page
    ensures FirstVisible(sels, probe).None? ==> clicked == None && page.clicks == old(page.clicks)
    ensures FirstVisible(sels, probe).Some? ==>
      && clicked == Some(sels[FirstVisible(sels, probe).value])
      && page.clicks == old(page.clicks) + [clicked.value]
  {
    var i := 0;
    while i < |sels|
      invariant 0 <= i <= |sels|
      invariant forall j :: 0 <= j < i ==> probe(sels[j]) == Hidden
      invariant FirstVisible(sels[i..], probe) == None ==> FirstVisible(sels, probe) == None
      invariant FirstVisible(sels[i..], probe).Some? ==>
        FirstVisible(sels, probe).value == FirstVisible(sels[i..], probe).value + i
      invariant page.clicks == old(page.clicks)
    {
      var sel := sels[i];
      match probe(sel)
      case ProbeRaised =>
        return None;
      case Visible =>
        page.clicks := page.clicks + [sel];
        return Some(sel);
      case Hidden =>
        assert sels[i..][1..] == sels[i + 1..];
        i := i + 1;
    }
    clicked := None;
  }
}
