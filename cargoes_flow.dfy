/** Model of backend/services/cargoes_flow.py (`get_sea_shipment`): the
    configuration guard, the number cleaning, the status branching over one
    abstract HTTP outcome, and the `dict.get` fallbacks of the extraction. */
module CargoesFlow {
  import opened Strings
  import opened Wrappers
  import opened JsonValues

  /** Python truthiness of a decoded value. */
  predicate Truthy(v: Json)
  {
    match v
    case JNull => false
    case JBool(b) => b
    case JInt(n) => n != 0
    case JStr(s) => s != ""
    case JArr(items) => items != []
    case JObj(fields) => fields != map[]
  }

  /** `str(v)` for the scalar values the extraction formats. Containers are
      rendered by a placeholder (see README "## Left out"). */
  function PyStr(v: Json): string
  {
    match v
    case JNull => "None"
    case JBool(b) => if b then "True" else "False"
    case JInt(n) => IntToString(n)
    case JStr(s) => s
    case JArr(_) => "[...]"
    case JObj(_) => "{...}"
  }

  /** `d.get(key, default)` on a dict. */
  function GetOr(d: map<string, Json>, key: string, default: Json): (v: Json)
    ensures key in d ==> v == d[key]
    ensures key !in d ==> v == default
  {
    if key in d then d[key] else default
  }

  /** The environment variables read at import time. */
  datatype Config = Config(apiKey: Option<string>, orgToken: Option<string>)

  /** The one HTTP GET: it raised (connection error, timeout, unset URL), or it
      answered with a status code and a body that is JSON or not. */
  datatype HttpOutcome = Raised | Answered(status: int, body: Option<Json>)

  /** The dict `get_sea_shipment` returns on success. */
  datatype Shipment = Shipment(
    container: string,
    carrier: Json,
    eta: Json,
    co2: string,
    status: Json,
    subStatus: Json,
    rawData: Json)

  /** `container_number.upper().replace(" ", "").replace("-", "")`. */
  function CleanNumber(s: string): (r: string)
    ensures ' ' !in r && '-' !in r
    ensures forall i :: 0 <= i < |r| ==> !IsLower(r[i])
    ensures |r| <= |s|
    ensures |s| == 1 ==> r == (if s[0] == ' ' || s[0] == '-' then [] else [UpperChar(s[0])])
  {
    var u := Upper(s);
    var r := RemoveChar(RemoveChar(u, ' '), '-');
    assert forall x :: x in u ==> !IsLower(x);
    assert forall x :: x in r ==> x in u;
    assert forall i :: 0 <= i < |r| ==> r[i] in r;
    r
  }

  /** Cleaning works character by character: it distributes over
      concatenation, so every character other than a space or a dash is kept,
      upper-cased, in its original order. */
  lemma CleanNumberAppend(a: string, b: string)
    ensures CleanNumber(a + b) == CleanNumber(a) + CleanNumber(b)
  {
    UpperAppend(a, b);
    RemoveCharAppend(Upper(a), Upper(b), ' ');
    RemoveCharAppend(RemoveChar(Upper(a), ' '), RemoveChar(Upper(b), ' '), '-');
  }

  lemma CleanNumberIdempotent(s: string)
    ensures CleanNumber(CleanNumber(s)) == CleanNumber(s)
  {
    var c := CleanNumber(s);
    UpperNoOp(c);
  }

  /** No API key or org token (unset or empty) stops the call before any request. */
  predicate Configured(cfg: Config)
  {
    cfg.apiKey.Some? && cfg.apiKey.value != "" && cfg.orgToken.Some? && cfg.orgToken.value != ""
  }

  /** The CO2 string: "<value> <unit>" with unit "kg" by default, "N/A" when the value is falsy. */
  function Co2String(value: Json, unit: Json): (r: string)
    ensures !Truthy(value) ==> r == "N/A"
    ensures Truthy(value) ==> r == PyStr(value) + " " + PyStr(unit)
  {
    if Truthy(value) then PyStr(value) + " " + PyStr(unit) else "N/A"
  }

  /** `a or b`. */
  function Or(a: Json, b: Json): (r: Json)
    ensures Truthy(a) ==> r == a
    ensures !Truthy(a) ==> r == b
  {
    if Truthy(a) then a else b
  }

  /** `shipment.get("emissions", {}).get("co2e", {})`: None when either
      step meets a value that is not a dict, since `.get` then raises. */
  function Co2eOf(f: map<string, Json>): (r: Option<map<string, Json>>)
    ensures "emissions" !in f ==> r == Some(map[])
    ensures "emissions" in f && !f["emissions"].JObj? ==> r.None?
  {
    var emissions := GetOr(f, "emissions", JObj(map[]));
    if !emissions.JObj? then None
    else
      var co2e := GetOr(emissions.fields, "co2e", JObj(map[]));
      if !co2e.JObj? then None else Some(co2e.fields)
  }

  /** The extraction from the first list element. It fails (None) only where
      a `.get` meets a value that is not a dict. The ETA is
      destinationOceanPortEta if truthy, else promisedEta if truthy, else
      "N/A"; the carrier is carrierScac if truthy, else "Unknown"; status and
      sub-status default to "Unknown" and "" only when their keys are absent;
      the CO2 text is "<value> <unit>" with unit "kg" by default, or "N/A"
      for a falsy value. */
  function Extract(clean: string, shipment: Json): (r: Option<Shipment>)
    ensures r.Some? <==> shipment.JObj? && Co2eOf(shipment.fields).Some?
    ensures r.Some? ==>
      var f := shipment.fields;
      var co2e := Co2eOf(f).value;
      var dest, promised, scac := Lookup(f, "destinationOceanPortEta"), Lookup(f, "promisedEta"), Lookup(f, "carrierScac");
      && r.value.container == clean
      && r.value.rawData == shipment
      && (Truthy(dest) ==> r.value.eta == dest)
      && (!Truthy(dest) && Truthy(promised) ==> r.value.eta == promised)
      && (!Truthy(dest) && !Truthy(promised) ==> r.value.eta == JStr("N/A"))
      && (Truthy(scac) ==> r.value.carrier == scac)
      && (!Truthy(scac) ==> r.value.carrier == JStr("Unknown"))
      && r.value.status == (if "status" in f then f["status"] else JStr("Unknown"))
      && r.value.subStatus == (if "subStatus1" in f then f["subStatus1"] else JStr(""))
      && (!Truthy(Lookup(co2e, "value")) ==> r.value.co2 == "N/A")
      && (Truthy(Lookup(co2e, "value")) ==>
            r.value.co2 == PyStr(Lookup(co2e, "value")) + " " + (if "unit" in co2e then PyStr(co2e["unit"]) else "kg"))
  {
    if !shipment.JObj? then None
    else
      var f := shipment.fields;
      match Co2eOf(f)
      case None => None
      case Some(co2e) =>
        Some(Shipment(
          clean,
          Or(Lookup(f, "carrierScac"), JStr("Unknown")),
          Or(Or(Lookup(f, "destinationOceanPortEta"), Lookup(f, "promisedEta")), JStr("N/A")),
          Co2String(Lookup(co2e, "value"), GetOr(co2e, "unit", JStr("kg"))),
          GetOr(f, "status", JStr("Unknown")),
          GetOr(f, "subStatus1", JStr("")),
          shipment))
  }

  /** `get_sea_shipment(container_number)`; `http` answers the request made
      for a cleaned number. A result exists only with both credentials, a 200
      answer and a non-empty JSON list; it describes the list's first element
      and carries the cleaned number. */
  function GetSeaShipment(cfg: Config, number: string, http: string -> HttpOutcome): (r: Option<Shipment>)
    ensures !Configured(cfg) ==> r.None?
    ensures http(CleanNumber(number)).Raised? ==> r.None?
    ensures http(CleanNumber(number)).Answered? && http(CleanNumber(number)).status != 200 ==> r.None?
    ensures r.Some? ==>
      var o := http(CleanNumber(number));
      && Configured(cfg)
      && o.Answered? && o.status == 200 && o.body.Some? && o.body.value.JArr? && o.body.value.items != []
      && r == Extract(CleanNumber(number), o.body.value.items[0])
    ensures var o := http(CleanNumber(number));
      Configured(cfg) && o.Answered? && o.status == 200 && o.body.Some? && o.body.value.JArr? && o.body.value.items != []
      ==> r == Extract(CleanNumber(number), o.body.value.items[0])
  {
    if !Configured(cfg) then None
    else
      var clean := CleanNumber(number);
      match http(clean)
      case Raised => None
      case Answered(code, body) =>
        if code != 200 then None
        else if body.None? || !body.value.JArr? || body.value.items == [] then None
        else Extract(clean, body.value.items[0])
  }
}
