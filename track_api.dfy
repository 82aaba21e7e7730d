/** Model of backend/main.py (`track_sea`): the Cargoes Flow tier first, then
    one carrier driver chosen by substring match, then the AI parser over the
    driver's raw text, else a fixed "Not Found" answer. Drivers and the AI
    parser are oracles. */
module TrackApi {
  import opened Strings
  import opened Wrappers
  import opened JsonValues
  import opened CargoesFlow

  /** The request body (`TrackRequest`): carrier defaults to "Unknown". */
  datatype TrackRequest = TrackRequest(number: string, carrier: string)

  /** A driver's answer: a dict, or None. */
  type ScrapeData = Option<map<string, Json>>

  datatype Driver = Msc | Hapag | Cma | Hmm

  /** The four driver entry points, each a function of the tracking number. */
  datatype Drivers = Drivers(
    msc: string -> ScrapeData,
    hapag: string -> ScrapeData,
    cma: string -> ScrapeData,
    hmm: string -> ScrapeData)

  /** `parse_tracking_data(raw_text, carrier)`: the dict the AI service answers. */
  type AiParser = (Json, string) -> map<string, Json>

  datatype Response =
    | Tracked(trackingNumber: string, carrier: string, status: Json, liveEta: Json,
              smartSummary: Json, rawDataSnippet: string)
    | NotFound(source: string, outcome: string, message: string)

  /** The JSON body FastAPI sends for a response dict (None becomes null). */
  function ResponseBody(r: Response): Json
  {
    match r
    case Tracked(n, c, st, eta, sum, snip) =>
      JObj(map["tracking_number" := JStr(n), "carrier" := JStr(c), "status" := st,
               "live_eta" := eta, "smart_summary" := sum, "raw_data_snippet" := JStr(snip)])
    case NotFound(src, st, msg) =>
      JObj(map["source" := JStr(src), "status" := JStr(st), "message" := JStr(msg)])
  }

  const NotFoundMessage := "Container not found in API, and no Official Driver available."

  /** The routing ladder over the lower-cased carrier: msc, then hapag, then
      cma, then hmm or hyundai; anything else has no driver. */
  function Route(carrier: string): (r: Option<Driver>)
    ensures var c := Lower(carrier);
      && (r == Some(Msc) <==> Contains(c, "msc"))
      && (r == Some(Hapag) <==> !Contains(c, "msc") && Contains(c, "hapag"))
      && (r == Some(Cma) <==> !Contains(c, "msc") && !Contains(c, "hapag") && Contains(c, "cma"))
      && (r == Some(Hmm) <==> !Contains(c, "msc") && !Contains(c, "hapag") && !Contains(c, "cma")
                              && (Contains(c, "hmm") || Contains(c, "hyundai")))
  {
    var c := Lower(carrier);
    if Contains(c, "msc") then Some(Msc)
    else if Contains(c, "hapag") then Some(Hapag)
    else if Contains(c, "cma") then Some(Cma)
    else if Contains(c, "hmm") || Contains(c, "hyundai") then Some(Hmm)
    else None
  }

  function Dispatch(d: Drivers, which: Option<Driver>, number: string): ScrapeData
  {
    match which
    case None => None
    case Some(Msc) => d.msc(number)
    case Some(Hapag) => d.hapag(number)
    case Some(Cma) => d.cma(number)
    case Some(Hmm) => d.hmm(number)
  }

  /** `scrape_data and scrape_data.get("raw_data")`, as the value handed to the AI. */
  function RawData(s: ScrapeData): Json
  {
    if s.None? then JNull else Lookup(s.value, "raw_data")
  }

  /** The tier-1 summary "API Status: {sub_status}. CO2: {co2}". */
  function ApiSummary(s: Shipment): string
  {
    "API Status: " + PyStr(s.subStatus) + ". CO2: " + s.co2
  }

  function TrackSea(req: TrackRequest, cfg: Config, http: string -> HttpOutcome, d: Drivers, ai: AiParser): (r: Response)
    ensures r.Tracked? ==> r.trackingNumber == req.number && r.carrier == req.carrier
    ensures r.NotFound? <==>
      GetSeaShipment(cfg, req.number, http).None? && !Truthy(RawData(Dispatch(d, Route(req.carrier), req.number)))
    ensures r.Tracked? ==>
      (r.rawDataSnippet == "Source: Cargoes Flow API" <==> GetSeaShipment(cfg, req.number, http).Some?)
    ensures r.NotFound? ==> r == NotFound("System", "Not Found", NotFoundMessage)
  {
    var data := GetSeaShipment(cfg, req.number, http);
    if data.Some? then
      Tracked(req.number, req.carrier, data.value.status, data.value.eta,
              JStr(ApiSummary(data.value)), "Source: Cargoes Flow API")
    else
      var scrape := Dispatch(d, Route(req.carrier), req.number);
      var raw := RawData(scrape);
      if Truthy(raw) then
        var result := ai(raw, req.carrier);
        Tracked(req.number, req.carrier, Lookup(result, "status"), Lookup(result, "latest_date"),
                Lookup(result, "summary"), "Source: Official Driver")
      else
        NotFound("System", "Not Found", NotFoundMessage)
  }

  /** Without a tier-1 result, a truthy `raw_data` from the routed driver is
      handed, with the carrier as given, to the AI parser; the answer's
      status, ETA and summary are the parser's "status", "latest_date" and
      "summary". */
  lemma DriverTextGoesToAi(req: TrackRequest, cfg: Config, http: string -> HttpOutcome, d: Drivers, ai: AiParser)
    requires GetSeaShipment(cfg, req.number, http).None?
    requires Truthy(RawData(Dispatch(d, Route(req.carrier), req.number)))
    ensures var result := ai(RawData(Dispatch(d, Route(req.carrier), req.number)), req.carrier);
      TrackSea(req, cfg, http, d, ai)
        == Tracked(req.number, req.carrier, Lookup(result, "status"), Lookup(result, "latest_date"),
                   Lookup(result, "summary"), "Source: Official Driver")
  {
  }

  /** A Cargoes Flow result decides the answer: no driver and no AI call can
      change it, and its status, ETA and summary come from the shipment. */
  lemma TierOneWins(req: TrackRequest, cfg: Config, http: string -> HttpOutcome,
                    d1: Drivers, d2: Drivers, ai1: AiParser, ai2: AiParser)
    requires GetSeaShipment(cfg, req.number, http).Some?
    ensures TrackSea(req, cfg, http, d1, ai1) == TrackSea(req, cfg, http, d2, ai2)
    ensures var s := GetSeaShipment(cfg, req.number, http).value;
      TrackSea(req, cfg, http, d1, ai1)
        == Tracked(req.number, req.carrier, s.status, s.eta,
                   JStr("API Status: " + PyStr(s.subStatus) + ". CO2: " + s.co2), "Source: Cargoes Flow API")
  {
  }

  /** Without a tier-1 result and a truthy `raw_data`, the AI parser is never
      consulted and the answer is the fixed "Not Found" message. */
  lemma NoRawDataNoAi(req: TrackRequest, cfg: Config, http: string -> HttpOutcome,
                      d: Drivers, ai1: AiParser, ai2: AiParser)
    requires GetSeaShipment(cfg, req.number, http).None?
    requires !Truthy(RawData(Dispatch(d, Route(req.carrier), req.number)))
    ensures TrackSea(req, cfg, http, d, ai1) == TrackSea(req, cfg, http, d, ai2)
    ensures TrackSea(req, cfg, http, d, ai1) == NotFound("System", "Not Found", NotFoundMessage)
  {
  }

  /** With no tier-1 result, only the routed driver matters: a carrier that
      matches no driver (such as "Evergreen") always ends in "Not Found". */
  lemma UnroutedCarrierNotFound(req: TrackRequest, cfg: Config, http: string -> HttpOutcome,
                                d: Drivers, ai: AiParser)
    requires GetSeaShipment(cfg, req.number, http).None?
    requires Route(req.carrier).None?
    ensures TrackSea(req, cfg, http, d, ai) == NotFound("System", "Not Found", NotFoundMessage)
  {
  }

  lemma EvergreenHasNoDriver()
    ensures Route("Evergreen") == None
  {
    var c := Lower("Evergreen");
    assert c == "evergreen";
    NotContainsFirstChar(c, "msc");
    NotContainsFirstChar(c, "hapag");
    NotContainsFirstChar(c, "cma");
    NotContainsFirstChar(c, "hmm");
    NotContainsFirstChar(c, "hyundai");
  }

  /** An ordering case: "MSC / Hapag" routes to the MSC driver. */
  lemma MscBeforeHapag()
    ensures Route("MSC / Hapag") == Some(Msc)
  {
    assert OccursAt(Lower("MSC / Hapag"), "msc", 0);
  }

  /** When the AI service keeps its guard (raw text shorter than 50 characters
      gives the fixed "Error" dict), a short driver text yields status "Error". */
  lemma ShortRawTextIsError(req: TrackRequest, cfg: Config, http: string -> HttpOutcome,
                            d: Drivers, ai: AiParser)
    requires forall s: string, c: string :: 0 < |s| < 50 ==> ai(JStr(s), c) == AiShortReply
    requires GetSeaShipment(cfg, req.number, http).None?
    requires RawData(Dispatch(d, Route(req.carrier), req.number)).JStr?
    requires 0 < |RawData(Dispatch(d, Route(req.carrier), req.number)).s| < 50
    ensures TrackSea(req, cfg, http, d, ai).Tracked?
    ensures TrackSea(req, cfg, http, d, ai).status == JStr("Error")
    ensures TrackSea(req, cfg, http, d, ai).smartSummary == JStr("No data extracted.")
  {
    var raw := RawData(Dispatch(d, Route(req.carrier), req.number));
    assert ai(raw, req.carrier) == AiShortReply;
  }

  /** The dict `parse_tracking_data` answers for raw text under 50 characters. */
  const AiShortReply: map<string, Json> := map[
    "latest_date" := JStr("N/A"),
    "status" := JStr("Error"),
    "summary" := JStr("No data extracted."),
    "co2" := JStr("N/A")]
}
