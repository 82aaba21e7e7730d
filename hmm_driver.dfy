/** Model of backend/services/sea/hmm.py (`drive_hmm_batch`): get the shared
    page, make sure there is a token (one refresh at most), send the whole
    container list in one in-page request, and classify the reply text. */
module HmmDriver {
  import opened Strings
  import opened Wrappers
  import opened PlaywrightApi
  import opened BrowserManagement

  /** What `drive_hmm_batch` ends with: the error dict, None, the reply text,
      or the exception raised by `page.evaluate`, which it does not catch. */
  datatype BatchResult = TokenError | NoResult | Content(text: string) | Raised

  /** The value under "error" in the error dict. */
  const TokenErrorMessage := "Could not acquire HMM Token"

  /** What `page.evaluate` does with the script: it raises when the browser
      rejects the script, and otherwise hands back the text the script
      returned (the reply body, or "JS_ERROR: ..." from the script's catch). */
  datatype EvalReply = EvalRaised | EvalText(text: string)

  /** The in-page `fetch` for a token and a container list. The script as
      written carries a Python `#` comment inside the JavaScript object
      literal, so a browser that parses it raises; the model keeps the
      outcome as a parameter so that both behaviours can be stated. */
  type BatchEvaluate = (string, seq<string>) -> EvalReply

  /** A reply naming either failure marker is no result; any other reply is
      handed back exactly as received. */
  function Classify(content: string): (r: BatchResult)
    ensures r.NoResult? <==> Contains(content, "JS_ERROR") || Contains(content, "No Data")
    ensures r.Content? <==> !r.NoResult?
    ensures r.Content? ==> r.text == content
  {
    if Contains(content, "JS_ERROR") || Contains(content, "No Data") then NoResult else Content(content)
  }

  /** The token once `get_page` has returned: the one held, or the one the
      first initialisation's refresh produced. */
  function TokenAfterGetPage(initialized: bool, held: Option<string>, env: RefreshEnv): Option<string>
  {
    if initialized then held else RefreshedToken(held, true, env)
  }

  /** The token used for the request: the first one if present, else the
      result of the single extra refresh. */
  function TokenForRequest(first: Option<string>, retry: RefreshEnv): (t: Option<string>)
    ensures Present(first) ==> t == first
  {
    if Present(first) then first else RefreshedToken(first, true, retry)
  }

  /** The whole batch as a function of the token in hand. */
  function BatchOutcome(token: Option<string>, containers: seq<string>, evaluate: BatchEvaluate): (r: BatchResult)
    ensures !Present(token) <==> r == TokenError
    ensures r == Raised <==> Present(token) && evaluate(token.value, containers).EvalRaised?
    ensures Present(token) && evaluate(token.value, containers).EvalText? ==>
      r == Classify(evaluate(token.value, containers).text)
  {
    if !Present(token) then TokenError
    else match evaluate(token.value, containers)
      case EvalRaised => Raised
      case EvalText(content) => Classify(content)
  }

  /** No token means no request: the error answer does not depend on what
      the page would have answered. */
  lemma NoTokenNoFetch(token: Option<string>, containers: seq<string>, e1: BatchEvaluate, e2: BatchEvaluate)
    requires !Present(token)
    ensures BatchOutcome(token, containers, e1) == BatchOutcome(token, containers, e2) == TokenError
  {
  }

  /** A "No Data" reply ends the batch with None; nothing is asked again. */
  lemma NoDataIsFinal(token: Option<string>, containers: seq<string>, evaluate: BatchEvaluate)
    requires Present(token)
    requires evaluate(token.value, containers).EvalText?
    requires Contains(evaluate(token.value, containers).text, "No Data")
    ensures BatchOutcome(token, containers, evaluate) == NoResult
  {
  }

  /** With the script as written, a browser that refuses to parse it makes
      every batch that gets past the token check end in the exception: no
      batch ever yields content or None. */
  lemma UnparsableScriptNeverAnswers(token: Option<string>, containers: seq<string>, evaluate: BatchEvaluate)
    requires forall t, c :: evaluate(t, c) == EvalRaised
    ensures BatchOutcome(token, containers, evaluate) == (if Present(token) then Raised else TokenError)
    ensures !BatchOutcome(token, containers, evaluate).Content?
  {
  }

  /** `drive_hmm_batch`: `initEnv` answers the refresh a first `get_page`
      makes, `retryEnv` the one extra refresh made when the token is missing. */
  method DriveHmmBatch(bm: BrowserManager, containers: seq<string>, initEnv: RefreshEnv,
                       retryEnv: RefreshEnv, evaluate: BatchEvaluate) returns (r: BatchResult)
    requires bm.Valid()
    modifies bm
    ensures bm.Valid() && bm.isInitialized
    ensures var first := TokenAfterGetPage(old(bm.isInitialized), old(bm.hmmToken), initEnv);
      && bm.hmmToken == TokenForRequest(first, retryEnv)
      && r == BatchOutcome(bm.hmmToken, containers, evaluate)
      && bm.refreshes == old(bm.refreshes) + (if old(bm.isInitialized) then 0 else 1)
                                           + (if Present(first) then 0 else 1)
    ensures bm.launches == old(bm.launches) + (if old(bm.isInitialized) then 0 else 1)
  {
    var page := bm.GetPage(initEnv);
    var token := bm.hmmToken;
    if !Present(token) {
      bm.Refresh(retryEnv);
      token := bm.hmmToken;
    }
    if !Present(token) {
      return TokenError;
    }
    var reply := evaluate(token.value, containers);
    match reply {
      case EvalRaised =>
        r := Raised;
      case EvalText(content) =>
        r := Classify(content);
    }
  }

  /** Once a usable token is held, a batch runs no refresh and launches
      nothing; its answer depends only on the reply to the one request. */
  method WarmBatch(bm: BrowserManager, containers: seq<string>, e: RefreshEnv, evaluate: BatchEvaluate)
    returns (r: BatchResult)
    requires bm.Valid() && bm.isInitialized && Present(bm.hmmToken)
    modifies bm
    ensures bm.refreshes == old(bm.refreshes) && bm.launches == old(bm.launches)
    ensures r == (match evaluate(old(bm.hmmToken).value, containers)
                  case EvalRaised => Raised
                  case EvalText(content) => Classify(content))
  {
    r := DriveHmmBatch(bm, containers, e, e, evaluate);
  }
}
