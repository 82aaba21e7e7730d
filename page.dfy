/** Model of the logic in frontend/app/page.tsx (the dashboard): how
    uploaded spreadsheet rows become shipments, the table edits, the
    tracking loop with its progress counter, the export projection and the
    status colour. React state is a class whose fields the handlers
    reassign; the tracking request is an oracle. */
module DashboardPage {
  import opened Strings
  import opened Wrappers
  import opened JsonValues
  import opened Sequences
  import opened Arithmetic
  import opened Excel
  import TrackApi

  // ---------------------------------------------------------------------
  // JavaScript values
  // ---------------------------------------------------------------------

  /** JavaScript truthiness; unlike Python, empty arrays and objects are truthy. */
  predicate JsTruthy(v: Json)
  {
    match v
    case JNull => false
    case JBool(b) => b
    case JInt(n) => n != 0
    case JStr(s) => s != ""
    case JArr(_) => true
    case JObj(_) => true
  }

  /** `a || b`. */
  function JsOr(a: Json, b: Json): (r: Json)
    ensures JsTruthy(a) ==> r == a
    ensures !JsTruthy(a) ==> r == b
  {
    if JsTruthy(a) then a else b
  }

  /** `String(v)` for the values a spreadsheet cell or a reply field can hold. */
  function JsString(v: Json): string
  {
    match v
    case JNull => "null"
    case JBool(b) => if b then "true" else "false"
    case JInt(n) => IntToString(n)
    case JStr(s) => s
    case JArr(_) => "[array]"
    case JObj(_) => "[object Object]"
  }

  /** `obj.key` on a decoded reply: undefined (JNull) when absent or when the
      reply is not an object. */
  function Member(data: Json, key: string): Json
  {
    if data.JObj? then Lookup(data.fields, key) else JNull
  }

  // ---------------------------------------------------------------------
  // Ordered substring rules
  // ---------------------------------------------------------------------

  /** "If the text contains any of `needles`, answer `result`." */
  datatype Rule = Rule(needles: seq<string>, result: string)

  predicate RuleMatches(c: string, rule: Rule)
  {
    exists k :: 0 <= k < |rule.needles| && Contains(c, rule.needles[k])
  }

  /** The first rule that matches, as an index. */
  function FirstRule(c: string, rules: seq<Rule>): (r: Option<nat>)
    ensures r.Some? ==> r.value < |rules| && RuleMatches(c, rules[r.value])
                        && forall j :: 0 <= j < r.value ==> !RuleMatches(c, rules[j])
    ensures r.None? ==> forall j :: 0 <= j < |rules| ==> !RuleMatches(c, rules[j])
  {
    if rules == [] then None
    else if RuleMatches(c, rules[0]) then Some(0)
    else match FirstRule(c, rules[1..])
      case None => None
      case Some(k) => Some(k + 1)
  }

  /** The answer of the first matching rule, else `default`. */
  function ApplyRules(c: string, rules: seq<Rule>, default: string): string
  {
    match FirstRule(c, rules)
    case None => default
    case Some(k) => rules[k].result
  }

  // ---------------------------------------------------------------------
  // Upload: spreadsheet rows to shipments
  // ---------------------------------------------------------------------

  /** One table row. Fields the interface leaves undefined are JNull. */
  datatype Shipment = Shipment(
    id: int,
    trackingNumber: string,
    carrier: string,
    systemEta: Json,
    liveEta: Json,
    status: Json,
    summary: Json,
    co2: Json,
    etaChanged: Json,
    loading: bool,
    selected: bool,
    kind: string,
    raw: Row)

  /** The carrier canonicalisation as written: an if/else-if chain over the
      upper-cased name; a name matching nothing is kept. */
  function CarrierFor(c: string): string
  {
    if Contains(c, "HAPAG") then "HAPAG-LLOYD"
    else if Contains(c, "CMA") then "CMA CGM"
    else if Contains(c, "ONE") then "ONE"
    else if Contains(c, "MSC") then "MSC"
    else if Contains(c, "HYUNDAI") || Contains(c, "HMM") then "HMM"
    else if Contains(c, "MAERSK") then "MAERSK"
    else if Contains(c, "COSCO") then "COSCO"
    else if Contains(c, "EVERGREEN") then "EVERGREEN"
    else c
  }

  /** The same canonicalisation as an ordered table. */
  const CarrierRules: seq<Rule> := [
    Rule(["HAPAG"], "HAPAG-LLOYD"),
    Rule(["CMA"], "CMA CGM"),
    Rule(["ONE"], "ONE"),
    Rule(["MSC"], "MSC"),
    Rule(["HYUNDAI", "HMM"], "HMM"),
    Rule(["MAERSK"], "MAERSK"),
    Rule(["COSCO"], "COSCO"),
    Rule(["EVERGREEN"], "EVERGREEN")]

  lemma SingleNeedle(c: string, n: string, res: string)
    ensures RuleMatches(c, Rule([n], res)) <==> Contains(c, n)
  {
    if Contains(c, n) {
      assert [n][0] == n;
    }
  }

  lemma PairNeedle(c: string, n1: string, n2: string, res: string)
    ensures RuleMatches(c, Rule([n1, n2], res)) <==> Contains(c, n1) || Contains(c, n2)
  {
    if Contains(c, n1) {
      assert [n1, n2][0] == n1;
    }
    if Contains(c, n2) {
      assert [n1, n2][1] == n2;
    }
  }

  /** The chain picks the first matching entry of the table, in table order. */
  lemma CarrierForIsFirstRule(c: string)
    ensures CarrierFor(c) == ApplyRules(c, CarrierRules, c)
  {
    var rules := CarrierRules;
    SingleNeedle(c, "HAPAG", "HAPAG-LLOYD");
    SingleNeedle(c, "CMA", "CMA CGM");
    SingleNeedle(c, "ONE", "ONE");
    SingleNeedle(c, "MSC", "MSC");
    PairNeedle(c, "HYUNDAI", "HMM", "HMM");
    SingleNeedle(c, "MAERSK", "MAERSK");
    SingleNeedle(c, "COSCO", "COSCO");
    SingleNeedle(c, "EVERGREEN", "EVERGREEN");
    assert rules[0] == Rule(["HAPAG"], "HAPAG-LLOYD") && rules[1] == Rule(["CMA"], "CMA CGM");
    assert rules[2] == Rule(["ONE"], "ONE") && rules[3] == Rule(["MSC"], "MSC");
    assert rules[4] == Rule(["HYUNDAI", "HMM"], "HMM") && rules[5] == Rule(["MAERSK"], "MAERSK");
    assert rules[6] == Rule(["COSCO"], "COSCO") && rules[7] == Rule(["EVERGREEN"], "EVERGREEN");
    var r := FirstRule(c, rules);
    if r.None? {
      assert forall j :: 0 <= j < 8 ==> !RuleMatches(c, rules[j]);
    } else {
      var k := r.value;
      assert forall j :: 0 <= j < k ==> !RuleMatches(c, rules[j]);
      assert RuleMatches(c, rules[k]);
    }
  }

  /** `String(norm.carrier || "Unknown").toUpperCase()`, canonicalised. */
  function CleanCarrier(v: Json): string
  {
    CarrierFor(Upper(JsString(JsOr(v, JStr("Unknown")))))
  }

  /** A missing or empty carrier becomes "UNKNOWN": no rule matches it. */
  lemma MissingCarrierIsUnknown(v: Json)
    requires !JsTruthy(v)
    ensures CleanCarrier(v) == "UNKNOWN"
  {
    var c := "UNKNOWN";
    assert Upper("Unknown") == c;
    NotContainsFirstChar(c, "HAPAG");
    NotContainsFirstChar(c, "CMA");
    NotContainsFirstChar(c, "MSC");
    NotContainsFirstChar(c, "HYUNDAI");
    NotContainsFirstChar(c, "HMM");
    NotContainsFirstChar(c, "MAERSK");
    NotContainsFirstChar(c, "COSCO");
    NotContainsFirstChar(c, "EVERGREEN");
    NotContainsFirstPair(c, "ONE");
  }

  /** A canonical name is a fixed point: canonicalising it again gives itself. */
  lemma CarrierForIdempotent(c: string)
    requires CarrierFor(c) != c
    ensures CarrierFor(CarrierFor(c)) == CarrierFor(c)
  {
    var r := CarrierFor(c);
    if r == "HAPAG-LLOYD" { HapagFixed(); }
    else if r == "CMA CGM" { CmaFixed(); }
    else if r == "ONE" { OneFixed(); }
    else if r == "MSC" { MscFixed(); }
    else if r == "HMM" { HmmFixed(); }
    else if r == "MAERSK" { MaerskFixed(); }
    else if r == "COSCO" { CoscoFixed(); }
    else { EvergreenFixed(); }
  }

  lemma HapagFixed()
    ensures CarrierFor("HAPAG-LLOYD") == "HAPAG-LLOYD"
  {
    assert OccursAt("HAPAG-LLOYD", "HAPAG", 0);
  }

  lemma CmaFixed()
    ensures CarrierFor("CMA CGM") == "CMA CGM"
  {
    NotContainsFirstChar("CMA CGM", "HAPAG");
    assert OccursAt("CMA CGM", "CMA", 0);
  }

  lemma OneFixed()
    ensures CarrierFor("ONE") == "ONE"
  {
    NotContainsFirstChar("ONE", "HAPAG");
    NotContainsFirstChar("ONE", "CMA");
    assert OccursAt("ONE", "ONE", 0);
  }

  lemma MscFixed()
    ensures CarrierFor("MSC") == "MSC"
  {
    NotContainsFirstChar("MSC", "HAPAG");
    NotContainsFirstPair("MSC", "CMA");
    NotContainsFirstChar("MSC", "ONE");
    assert OccursAt("MSC", "MSC", 0);
  }

  lemma HmmFixed()
    ensures CarrierFor("HMM") == "HMM"
  {
    NotContainsFirstPair("HMM", "HAPAG");
    NotContainsFirstChar("HMM", "CMA");
    NotContainsFirstChar("HMM", "ONE");
    NotContainsFirstPair("HMM", "MSC");
    assert OccursAt("HMM", "HMM", 0);
  }

  lemma MaerskFixed()
    ensures CarrierFor("MAERSK") == "MAERSK"
  {
    NotContainsFirstChar("MAERSK", "HAPAG");
    NotContainsFirstChar("MAERSK", "CMA");
    NotContainsFirstChar("MAERSK", "ONE");
    NotContainsFirstPair("MAERSK", "MSC");
    NotContainsFirstChar("MAERSK", "HYUNDAI");
    NotContainsFirstChar("MAERSK", "HMM");
    assert OccursAt("MAERSK", "MAERSK", 0);
  }

  lemma CoscoFixed()
    ensures CarrierFor("COSCO") == "COSCO"
  {
    NotContainsFirstChar("COSCO", "HAPAG");
    NotContainsFirstPair("COSCO", "CMA");
    NotContainsFirstPair("COSCO", "ONE");
    NotContainsFirstChar("COSCO", "MSC");
    NotContainsFirstChar("COSCO", "HYUNDAI");
    NotContainsFirstChar("COSCO", "HMM");
    NotContainsFirstChar("COSCO", "MAERSK");
    assert OccursAt("COSCO", "COSCO", 0);
  }

  lemma EvergreenFixed()
    ensures CarrierFor("EVERGREEN") == "EVERGREEN"
  {
    NotContainsFirstChar("EVERGREEN", "HAPAG");
    NotContainsFirstChar("EVERGREEN", "CMA");
    NotContainsFirstChar("EVERGREEN", "ONE");
    NotContainsFirstChar("EVERGREEN", "MSC");
    NotContainsFirstChar("EVERGREEN", "HYUNDAI");
    NotContainsFirstChar("EVERGREEN", "HMM");
    NotContainsFirstChar("EVERGREEN", "MAERSK");
    NotContainsFirstChar("EVERGREEN", "COSCO");
    assert OccursAt("EVERGREEN", "EVERGREEN", 0);
  }

  /** `!isNaN(Number(s))`, restricted to digit strings (see README "## Left out"). */
  predicate IsNumericText(s: string)
  {
    s != [] && forall i :: 0 <= i < |s| ==> IsDigit(s[i])
  }

  /** An air waybill: contains "-", or is 11 numeric characters. */
  predicate IsAir(t: string)
  {
    Contains(t, "-") || (|t| == 11 && IsNumericText(t))
  }

  /** The shipment built from row `index` of the parsed sheet, given its
      normalised form `norm`. */
  function MapRowFrom(index: nat, norm: map<string, Json>, row: Row): Shipment
  {
    var tracking := Trim(JsString(JsOr(Lookup(norm, "trackingNumber"), JStr(""))));
    Shipment(
      index,
      tracking,
      CleanCarrier(Lookup(norm, "carrier")),
      JsOr(Lookup(norm, "systemEta"), JStr("N/A")),
      JNull, JNull, JNull, JNull, JNull,
      false,
      true,
      if IsAir(tracking) then "air" else "sea",
      row)
  }

  /** The callback of `data.map` for row `index`. */
  function MapRow(index: nat, row: Row): Shipment
  {
    MapRowFrom(index, Normalized(row), row)
  }

  /** A mapped row keeps its index as id and the sheet row as `raw`, starts
      selected and idle with no tracking result yet. Its number is the text
      of the tracking-number cell with surrounding whitespace removed; its
      carrier is the first matching entry of the carrier table; it is "air"
      exactly when the number has a dash or is 11 digits. */
  lemma MapRowShape(index: nat, row: Row)
    ensures var s := MapRow(index, row);
      var text := JsString(JsOr(Lookup(Normalized(row), "trackingNumber"), JStr("")));
      var upper := Upper(JsString(JsOr(Lookup(Normalized(row), "carrier"), JStr("Unknown"))));
      && s.id == index && s.raw == row && s.selected && !s.loading
      && s.liveEta == JNull && s.status == JNull && s.summary == JNull
      && (exists i :: SurroundedBySpace(text, s.trackingNumber, i))
      && (s.trackingNumber == [] || (!IsJsSpace(s.trackingNumber[0])
                                     && !IsJsSpace(s.trackingNumber[|s.trackingNumber| - 1])))
      && (s.kind == "air" <==> Contains(s.trackingNumber, "-")
                               || (|s.trackingNumber| == 11 && forall k :: 0 <= k < 11 ==> IsDigit(s.trackingNumber[k])))
      && (s.kind == "air" || s.kind == "sea")
      && s.carrier == ApplyRules(upper, CarrierRules, upper)
      && var eta := Lookup(Normalized(row), "systemEta");
         (JsTruthy(eta) ==> s.systemEta == eta) && (!JsTruthy(eta) ==> s.systemEta == JStr("N/A"))
  {
    var upper := Upper(JsString(JsOr(Lookup(Normalized(row), "carrier"), JStr("Unknown"))));
    CarrierForIsFirstRule(upper);
  }

  /** The upload filter: a real container or air waybill number. */
  predicate HasNumber(s: Shipment)
  {
    s.trackingNumber != "" && |s.trackingNumber| > 5 && s.trackingNumber != "UNKNOWN"
  }

  function MapAll(rows: seq<Row>): (r: seq<Shipment>)
    ensures |r| == |rows|
    ensures forall i :: 0 <= i < |rows| ==> r[i] == MapRow(i, rows[i])
  {
    seq(|rows|, i requires 0 <= i < |rows| => MapRow(i, rows[i]))
  }

  /** The shipments `handleFileUpload` stores. */
  function MapRows(rows: seq<Row>): seq<Shipment>
  {
    Keep(MapAll(rows), HasNumber)
  }

  /** Ids strictly increase along a sequence. */
  predicate IdsIncrease(xs: seq<Shipment>)
  {
    forall a, b :: 0 <= a < b < |xs| ==> xs[a].id < xs[b].id
  }

  lemma {:induction false} KeepIdsIncrease(xs: seq<Shipment>, p: Shipment -> bool)
    requires IdsIncrease(xs)
    ensures IdsIncrease(Keep(xs, p))
  {
    if xs != [] {
      var init := xs[..|xs| - 1];
      KeepIdsIncrease(init, p);
      KeepMembers(init, p);
      var k := Keep(init, p);
      forall a | 0 <= a < |k| ensures k[a].id < xs[|xs| - 1].id {
        assert k[a] in init;
      }
    }
  }

  /** Every stored shipment is the mapping of the row its id names and
      passes the filter; every row whose mapping passes is stored; the rows
      keep sheet order. */
  lemma MapRowsContents(rows: seq<Row>)
    ensures forall s :: s in MapRows(rows) ==>
      HasNumber(s) && 0 <= s.id < |rows| && s == MapRow(s.id, rows[s.id])
    ensures forall i :: 0 <= i < |rows| && HasNumber(MapRow(i, rows[i])) ==> MapRow(i, rows[i]) in MapRows(rows)
    ensures IdsIncrease(MapRows(rows))
    ensures |MapRows(rows)| <= |rows|
  {
    var all := MapAll(rows);
    MapAllIds(rows);
    KeepMembers(all, HasNumber);
    forall s | s in all ensures 0 <= s.id < |rows| && s == MapRow(s.id, rows[s.id]) {
      var i :| 0 <= i < |all| && all[i] == s;
    }
    forall i | 0 <= i < |rows| ensures MapRow(i, rows[i]) in all {
      assert all[i] == MapRow(i, rows[i]);
    }
    KeepIdsIncrease(all, HasNumber);
  }

  /** Before filtering, each mapped row's id is its position. */
  lemma MapAllIds(rows: seq<Row>)
    ensures forall i :: 0 <= i < |rows| ==> MapAll(rows)[i].id == i
  {
    forall i | 0 <= i < |rows| ensures MapAll(rows)[i].id == i {
      MapRowId(i, rows[i]);
    }
  }

  lemma MapRowId(index: nat, row: Row)
    ensures MapRow(index, row).id == index
  {
  }

  // ---------------------------------------------------------------------
  // Edits
  // ---------------------------------------------------------------------

  /** The text fields the table lets one edit. */
  datatype Field = TrackingNumberField | CarrierField | SystemEtaField | LiveEtaField
                 | StatusField | SummaryField | Co2Field | KindField

  function GetField(s: Shipment, f: Field): Json
  {
    match f
    case TrackingNumberField => JStr(s.trackingNumber)
    case CarrierField => JStr(s.carrier)
    case SystemEtaField => s.systemEta
    case LiveEtaField => s.liveEta
    case StatusField => s.status
    case SummaryField => s.summary
    case Co2Field => s.co2
    case KindField => JStr(s.kind)
  }

  /** `{ ...s, [field]: value }`. */
  function SetField(s: Shipment, f: Field, value: string): Shipment
  {
    match f
    case TrackingNumberField => s.(trackingNumber := value)
    case CarrierField => s.(carrier := value)
    case SystemEtaField => s.(systemEta := JStr(value))
    case LiveEtaField => s.(liveEta := JStr(value))
    case StatusField => s.(status := JStr(value))
    case SummaryField => s.(summary := JStr(value))
    case Co2Field => s.(co2 := JStr(value))
    case KindField => s.(kind := value)
  }

  /** Writing a field stores the value in it and leaves every other field,
      the id and the flags unchanged. */
  lemma SetFieldLaws(s: Shipment, f: Field, value: string)
    ensures GetField(SetField(s, f, value), f) == JStr(value)
    ensures forall g :: g != f ==> GetField(SetField(s, f, value), g) == GetField(s, g)
    ensures var t := SetField(s, f, value);
      t.id == s.id && t.selected == s.selected && t.loading == s.loading
      && t.etaChanged == s.etaChanged && t.raw == s.raw
  {
  }

  function UpdateShipment(list: seq<Shipment>, id: int, f: Field, value: string): (r: seq<Shipment>)
    ensures |r| == |list|
  {
    seq(|list|, i requires 0 <= i < |list| => if list[i].id == id then SetField(list[i], f, value) else list[i])
  }

  function ToggleSelect(list: seq<Shipment>, id: int): (r: seq<Shipment>)
    ensures |r| == |list|
  {
    seq(|list|, i requires 0 <= i < |list| => if list[i].id == id then list[i].(selected := !list[i].selected) else list[i])
  }

  function ToggleSelectAll(list: seq<Shipment>, checked: bool): (r: seq<Shipment>)
    ensures |r| == |list|
  {
    seq(|list|, i requires 0 <= i < |list| => list[i].(selected := checked))
  }

  function DeleteRow(list: seq<Shipment>, id: int): seq<Shipment>
  {
    Keep(list, (s: Shipment) => s.id != id)
  }

  /** `updateShipment` changes only the named field of the rows with that id. */
  lemma UpdateShipmentEffect(list: seq<Shipment>, id: int, f: Field, value: string)
    ensures var r := UpdateShipment(list, id, f, value);
      forall i :: 0 <= i < |list| ==>
        && (list[i].id != id ==> r[i] == list[i])
        && (list[i].id == id ==>
              && GetField(r[i], f) == JStr(value) && r[i].id == id
              && forall g :: g != f ==> GetField(r[i], g) == GetField(list[i], g))
  {
    forall i | 0 <= i < |list| && list[i].id == id {
      SetFieldLaws(list[i], f, value);
    }
  }

  /** `toggleSelect` flips the flag of the rows with that id and nothing else;
      toggling twice restores the table. */
  lemma ToggleSelectEffect(list: seq<Shipment>, id: int)
    ensures var r := ToggleSelect(list, id);
      forall i :: 0 <= i < |list| ==>
        && (list[i].id != id ==> r[i] == list[i])
        && (list[i].id == id ==> r[i].selected == !list[i].selected && r[i].(selected := list[i].selected) == list[i])
    ensures ToggleSelect(ToggleSelect(list, id), id) == list
  {
    var r := ToggleSelect(ToggleSelect(list, id), id);
    forall i | 0 <= i < |list| ensures r[i] == list[i] {
    }
  }

  /** `toggleSelectAll(checked)` sets every row's flag and only that; a second
      call with the same value changes nothing. */
  lemma ToggleSelectAllEffect(list: seq<Shipment>, checked: bool)
    ensures forall i :: 0 <= i < |list| ==>
      ToggleSelectAll(list, checked)[i].selected == checked
      && ToggleSelectAll(list, checked)[i].(selected := list[i].selected) == list[i]
    ensures ToggleSelectAll(ToggleSelectAll(list, checked), checked) == ToggleSelectAll(list, checked)
  {
  }

  /** `deleteRow` keeps exactly the rows with another id, in their order. */
  lemma DeleteRowEffect(list: seq<Shipment>, ys: seq<Shipment>, id: int)
    ensures forall s :: s in DeleteRow(list, id) <==> s in list && s.id != id
    ensures DeleteRow(list + ys, id) == DeleteRow(list, id) + DeleteRow(ys, id)
    ensures (forall k :: 0 <= k < |list| ==> list[k].id != id) ==> DeleteRow(list, id) == list
  {
    KeepMembers(list, (s: Shipment) => s.id != id);
    KeepAppend(list, ys, (s: Shipment) => s.id != id);
    if forall k :: 0 <= k < |list| ==> list[k].id != id {
      KeepAll(list, (s: Shipment) => s.id != id);
    }
  }

  // ---------------------------------------------------------------------
  // Tracking
  // ---------------------------------------------------------------------

  /** `Math.round(completed / total * 100)` for 0 <= completed: the floor of
      100 * completed / total + 1/2, in integers. */
  function Percent(completed: nat, total: nat): int
    requires total > 0
  {
    (200 * completed + total) / (2 * total)
  }

  /** The percentage stays within 0..100, grows with the count and is 100 once every row is done. */
  lemma PercentFacts(c1: nat, c2: nat, total: nat)
    requires 0 < total && c1 <= c2 <= total
    ensures 0 <= Percent(c1, total) <= Percent(c2, total) <= 100
    ensures Percent(total, total) == 100
    ensures Percent(0, total) == 0
  {
    var d := 2 * total;
    DivMonotone(200 * c1 + total, 200 * c2 + total, d);
    DivMonotone(200 * c2 + total, 200 * total + total, d);
    assert 200 * total + total == 100 * d + total;
    DivUnique(200 * total + total, 100, total, d);
    DivUnique(total, 0, total, d);
  }

  /** The answer to one tracking request: a decoded JSON body, or a failure
      (the fetch or `res.json()` threw). */
  datatype Reply = FetchFailed | Replied(data: Json)

  /** The POST to /api/track/sea for a number, a carrier and a system ETA. */
  type TrackFetch = (string, string, Json) -> Reply

  /** The row after its request has been answered. */
  function Tracked(s: Shipment, reply: Reply): (t: Shipment)
    ensures !t.loading && t.id == s.id && t.selected == s.selected && t.trackingNumber == s.trackingNumber
    ensures reply.FetchFailed? ==> t == s.(loading := false, status := JStr("Network Error"))
  {
    match reply
    case FetchFailed => s.(loading := false, status := JStr("Network Error"))
    case Replied(data) =>
      s.(loading := false,
         liveEta := JsOr(Member(data, "live_eta"), JStr("N/A")),
         status := JsOr(Member(data, "status"), JStr("Error")),
         summary := JsOr(Member(data, "smart_summary"), JsOr(Member(data, "message"), JStr("No data"))),
         co2 := JsOr(Member(data, "co2"), JStr("N/A")),
         etaChanged := JsOr(Member(data, "eta_changed"), JBool(false)))
  }

  /** The intermediate "Processing..." state is always overwritten. */
  lemma ProcessingOverwritten(s: Shipment, reply: Reply)
    ensures Tracked(s.(loading := true, status := JStr("Processing...")), reply) == Tracked(s, reply)
  {
  }

  /** The backend's answers carry neither "co2" nor "eta_changed", so
      tracked rows always show CO2 "N/A" and ETA-changed false; a
      "Not Found" answer shows status "Not Found" and the backend message. */
  lemma BackendReplyFields(s: Shipment, r: TrackApi.Response)
    ensures var t := Tracked(s, Replied(TrackApi.ResponseBody(r)));
      t.co2 == JStr("N/A") && t.etaChanged == JBool(false)
    ensures r.NotFound? ==> var t := Tracked(s, Replied(TrackApi.ResponseBody(r)));
      t.status == JsOr(JStr(r.outcome), JStr("Error"))
      && t.summary == JsOr(JStr(r.message), JStr("No data"))
      && t.liveEta == JStr("N/A")
  {
  }

  predicate IsSelected(s: Shipment) { s.selected }

  /** The table `startTracking` leaves: every selected row tracked with the
      reply to its own request, every other row as it was. */
  function TrackAll(list: seq<Shipment>, fetch: TrackFetch): (r: seq<Shipment>)
    ensures |r| == |list|
    ensures forall i :: 0 <= i < |list| ==> r[i] == TrackRow(list[i], fetch)
  {
    seq(|list|, i requires 0 <= i < |list| => TrackRow(list[i], fetch))
  }

  /** One row of that table. */
  function TrackRow(s: Shipment, fetch: TrackFetch): Shipment
  {
    if s.selected then Tracked(s, fetch(s.trackingNumber, s.carrier, s.systemEta)) else s
  }

  /** The table after the first `n` rows have been handled. */
  function TrackedUpTo(list: seq<Shipment>, n: nat, fetch: TrackFetch): seq<Shipment>
  {
    seq(|list|, j requires 0 <= j < |list| => if j < n then TrackRow(list[j], fetch) else list[j])
  }

  lemma TrackedUpToStep(list: seq<Shipment>, n: nat, fetch: TrackFetch)
    requires n < |list|
    ensures TrackedUpTo(list, n, fetch)[n := TrackRow(TrackedUpTo(list, n, fetch)[n], fetch)]
            == TrackedUpTo(list, n + 1, fetch)
  {
  }

  lemma TrackedUpToAll(list: seq<Shipment>, fetch: TrackFetch)
    ensures TrackedUpTo(list, 0, fetch) == list
    ensures TrackedUpTo(list, |list|, fetch) == TrackAll(list, fetch)
  {
  }

  /** Only selected rows are touched, and a failed request marks its row "Network Error". */
  lemma TrackAllEffect(list: seq<Shipment>, fetch: TrackFetch)
    ensures forall i :: 0 <= i < |list| && !list[i].selected ==> TrackAll(list, fetch)[i] == list[i]
    ensures forall i :: 0 <= i < |list| ==>
              (list[i].selected && fetch(list[i].trackingNumber, list[i].carrier, list[i].systemEta).FetchFailed?
               ==> TrackAll(list, fetch)[i].status == JStr("Network Error") && !TrackAll(list, fetch)[i].loading)
    ensures forall i :: 0 <= i < |list| ==> TrackAll(list, fetch)[i].id == list[i].id
  {
  }

  /** `handleExport`'s projection of one row. */
  datatype ExportRow = ExportRow(
    containerNo: string, carrier: string, systemEta: Json, liveEta: Json,
    co2Emissions: Json, status: Json, summary: Json, etaChangedText: string)

  function ExportOf(s: Shipment): ExportRow
  {
    ExportRow(s.trackingNumber, s.carrier, s.systemEta, s.liveEta, s.co2, s.status, s.summary,
              if JsTruthy(s.etaChanged) then "YES" else "NO")
  }

  function ExportRows(list: seq<Shipment>): (r: seq<ExportRow>)
    ensures |r| == Count(list, IsSelected)
  {
    var selected := Keep(list, IsSelected);
    seq(|selected|, k requires 0 <= k < |selected| => ExportOf(selected[k]))
  }

  /** The export holds one row per selected shipment, in table order, each
      the projection of that shipment, with "ETA Changed" YES exactly when
      the flag is truthy; unselected shipments contribute nothing. */
  lemma ExportRowsEffect(list: seq<Shipment>, more: seq<Shipment>)
    ensures forall k :: 0 <= k < |ExportRows(list)| ==>
      var s := Keep(list, IsSelected)[k];
      s in list && s.selected && ExportRows(list)[k] == ExportOf(s)
      && (ExportRows(list)[k].etaChangedText == "YES" <==> JsTruthy(s.etaChanged))
    ensures (forall k :: 0 <= k < |more| ==> !more[k].selected) ==> ExportRows(list + more) == ExportRows(list)
  {
    KeepMembers(list, IsSelected);
    KeepAppend(list, more, IsSelected);
    if forall k :: 0 <= k < |more| ==> !more[k].selected {
      KeepNone(more, IsSelected);
      assert Keep(list + more, IsSelected) == Keep(list, IsSelected);
    }
  }

  // ---------------------------------------------------------------------
  // Status colour
  // ---------------------------------------------------------------------

  const GrayBadge := "bg-gray-100 text-gray-600"
  const GreenBadge := "bg-green-100 text-green-800 border-green-200"
  const BlueBadge := "bg-blue-100 text-blue-800 border-blue-200"
  const RedBadge := "bg-red-100 text-red-800 border-red-200"
  const YellowBadge := "bg-yellow-100 text-yellow-800 border-yellow-200"

  const StatusRules: seq<Rule> := [
    Rule(["arrived", "delivered"], GreenBadge),
    Rule(["transit", "departed"], BlueBadge),
    Rule(["error", "found"], RedBadge)]

  /** `getStatusColor(status)`; None where `toLowerCase` is called on a
      truthy value that is not a string (a TypeError). */
  function GetStatusColor(status: Json): Option<string>
  {
    if !JsTruthy(status) then Some(GrayBadge)
    else if !status.JStr? then None
    else
      var s := Lower(status.s);
      if Contains(s, "arrived") || Contains(s, "delivered") then Some(GreenBadge)
      else if Contains(s, "transit") || Contains(s, "departed") then Some(BlueBadge)
      else if Contains(s, "error") || Contains(s, "found") then Some(RedBadge)
      else Some(YellowBadge)
  }

  /** Gray when there is no status (undefined, null or empty); otherwise
      the first matching entry of the ordered table over the lower-cased
      status, yellow when none matches. A truthy status that is not a string
      has no `toLowerCase` and raises. */
  lemma StatusColorIsFirstRule(status: Json)
    ensures !JsTruthy(status) ==> GetStatusColor(status) == Some(GrayBadge)
    ensures JsTruthy(status) && !status.JStr? ==> GetStatusColor(status).None?
    ensures JsTruthy(status) && status.JStr? ==>
      GetStatusColor(status) == Some(ApplyRules(Lower(status.s), StatusRules, YellowBadge))
  {
    if !status.JStr? || status.s == "" { return; }
    var c := Lower(status.s);
    PairNeedle(c, "arrived", "delivered", GreenBadge);
    PairNeedle(c, "transit", "departed", BlueBadge);
    PairNeedle(c, "error", "found", RedBadge);
    var rules := StatusRules;
    assert rules[0] == Rule(["arrived", "delivered"], GreenBadge);
    assert rules[1] == Rule(["transit", "departed"], BlueBadge);
    assert rules[2] == Rule(["error", "found"], RedBadge);
    var r := FirstRule(c, rules);
    if r.None? {
      assert forall j :: 0 <= j < 3 ==> !RuleMatches(c, rules[j]);
    } else {
      var k := r.value;
      assert forall j :: 0 <= j < k ==> !RuleMatches(c, rules[j]);
      assert RuleMatches(c, rules[k]);
    }
  }

  // ---------------------------------------------------------------------
  // The dashboard state
  // ---------------------------------------------------------------------

  /** One callback of `data.map`: normalise the keys, then build the row. */
  method MapOne(index: nat, row: Row) returns (s: Shipment)
    ensures s == MapRow(index, row)
  {
    var norm := NormalizeKeys(row);
    s := MapRowFrom(index, norm, row);
  }

  class Dashboard {
    var shipments: seq<Shipment>
    var isProcessing: bool
    var progress: int

    constructor ()
      ensures shipments == [] && !isProcessing && progress == 0
    {
      shipments, isProcessing, progress := [], false, 0;
    }

    /** `handleFileUpload` once the sheet has been parsed into rows. */
    method Upload(rows: seq<Row>)
      modifies this
      ensures shipments == MapRows(rows)
      ensures isProcessing == old(isProcessing) && progress == old(progress)
    {
      shipments := Keep(MapAll(rows), HasNumber);
    }

    /** `startTracking`: one request per selected row of the table as it was
      when the loop started, in order; progress as a rounded percentage of
      the selected rows done. */
    method StartTracking(fetch: TrackFetch)
      modifies this
      ensures shipments == TrackAll(old(shipments), fetch)
      ensures !isProcessing
      ensures progress == (if Count(old(shipments), IsSelected) > 0 then 100 else 0)
    {
      isProcessing := true;
      progress := 0;
      var snapshot := shipments;
      var completed := 0;
      var total := Count(snapshot, IsSelected);
      var i := 0;
      TrackedUpToAll(snapshot, fetch);
      assert snapshot[..0] == [];
      while i < |snapshot|
        invariant 0 <= i <= |snapshot|
        invariant shipments == TrackedUpTo(snapshot, i, fetch)
        invariant completed == Count(snapshot[..i], IsSelected) <= total
        invariant progress == (if completed == 0 then 0 else Percent(completed, total))
      {
        completed := TrackStep(snapshot, i, fetch, completed, total);
        i := i + 1;
      }
      assert snapshot[..|snapshot|] == snapshot;
      if total > 0 {
        PercentFacts(total, total, total);
      }
      isProcessing := false;
    }

    /** One iteration of the loop: a selected row shows "Processing..." while
      its request is out, then the reply, and the progress bar moves on. */
    method TrackStep(snapshot: seq<Shipment>, i: nat, fetch: TrackFetch, completed: nat, total: nat)
      returns (done: nat)
      requires i < |snapshot| && shipments == TrackedUpTo(snapshot, i, fetch)
      requires completed == Count(snapshot[..i], IsSelected) && total == Count(snapshot, IsSelected)
      modifies this
      ensures shipments == TrackedUpTo(snapshot, i + 1, fetch)
      ensures done == Count(snapshot[..i + 1], IsSelected) <= total
      ensures done == completed ==> progress == old(progress)
      ensures done != completed ==> 0 < done && progress == Percent(done, total)
      ensures isProcessing == old(isProcessing)
    {
      CountSnoc(snapshot, i, IsSelected);
      CountPrefixBound(snapshot, i + 1, IsSelected);
      TrackedUpToStep(snapshot, i, fetch);
      done := completed;
      var s := shipments[i];
      if s.selected {
        shipments := shipments[i := s.(loading := true, status := JStr("Processing..."))];
        var reply := fetch(s.trackingNumber, s.carrier, s.systemEta);
        ProcessingOverwritten(s, reply);
        shipments := shipments[i := Tracked(shipments[i], reply)];
        done := done + 1;
        progress := Percent(done, total);
      }
    }
  }
}
