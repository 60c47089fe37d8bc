/** The build-status types shared by the GET and POST endpoints. */
module BuildStatus {
  import opened Wrappers
  import opened Json
  import Numeric
  import Serde

  datatype BuildStatusState = Unknown | Successful | Failed | InProgress | Cancelled

  /** The serde wire names, in declaration order. */
  const WIRE_NAMES: seq<string> := ["UNKNOWN", "SUCCESSFUL", "FAILED", "INPROGRESS", "CANCELLED"]

  /** `#[derive(Default)]` with `#[default]` on Unknown. */
  function DefaultState(): (s: BuildStatusState)
    ensures WireName(s) == "UNKNOWN"
  {
    Unknown
  }

  /** The `#[serde(rename = ...)]` of each state. */
  function WireName(s: BuildStatusState): (w: string)
    ensures w in WIRE_NAMES
    ensures FromString(w) == s
  {
    match s
    case Unknown => "UNKNOWN"
    case Successful => "SUCCESSFUL"
    case Failed => "FAILED"
    case InProgress => "INPROGRESS"
    case Cancelled => "CANCELLED"
  }

  /** `From<String> for BuildStatusState`: exact, case-sensitive matching of
      the wire names, and Unknown for every other string. */
  function FromString(value: string): (s: BuildStatusState)
    ensures value !in WIRE_NAMES ==> s == Unknown
    ensures value == "SUCCESSFUL" <==> s == Successful
    ensures value == "FAILED" <==> s == Failed
    ensures value == "INPROGRESS" <==> s == InProgress
    ensures value == "CANCELLED" <==> s == Cancelled
  {
    match value
    case "UNKNOWN" => Unknown
    case "SUCCESSFUL" => Successful
    case "FAILED" => Failed
    case "INPROGRESS" => InProgress
    case "CANCELLED" => Cancelled
    case _ => Unknown
  }

  /** A wire name converts to the state whose wire name it is. */
  lemma FromStringInverse(value: string)
    requires value in WIRE_NAMES
    ensures WireName(FromString(value)) == value
  {
  }

  /** Distinct states have distinct wire names. */
  lemma WireNameInjective(a: BuildStatusState, b: BuildStatusState)
    ensures WireName(a) == WireName(b) ==> a == b
  {
    assert FromString(WireName(a)) == a;
    assert FromString(WireName(b)) == b;
  }

  /** The conversions the unit test at the bottom of build_status.rs makes,
      including a mixed-case string, which is not recognised. */
  lemma FromStringExamples()
    ensures FromString("SUCCESSFUL") == Successful
    ensures FromString("FAILED") == Failed
    ensures FromString("INPROGRESS") == InProgress
    ensures FromString("CANCELLED") == Cancelled
    ensures FromString("UNKNOWN") == Unknown
    ensures FromString("InVaLiD") == Unknown
    ensures FromString("successful") == Unknown
  {
  }

  function StateToJson(s: BuildStatusState): (j: Json)
    ensures j == JString(WireName(s))
  {
    JString(WireName(s))
  }

  /** The derived `Deserialize`: only the five wire names are accepted;
      unlike `FromString`, any other string is an error. */
  function StateFromJson(j: Json): (r: Result<BuildStatusState, string>)
    ensures r.Ok? <==> j.JString? && j.s in WIRE_NAMES
    ensures r.Ok? ==> WireName(r.value) == j.s
  {
    var unknown := Err("unknown variant, expected one of UNKNOWN, SUCCESSFUL, FAILED, INPROGRESS, CANCELLED");
    match j
    case JString(s) =>
      (match s
       case "UNKNOWN" => Ok(Unknown)
       case "SUCCESSFUL" => Ok(Successful)
       case "FAILED" => Ok(Failed)
       case "INPROGRESS" => Ok(InProgress)
       case "CANCELLED" => Ok(Cancelled)
       case _ => unknown)
    case _ => unknown
  }

  lemma StateRoundTrip(s: BuildStatusState)
    ensures StateFromJson(StateToJson(s)) == Ok(s)
  {
  }

  /** `key`, `state` and `url`, the three plain fields both build-status
      structs begin with, decoded in that order. */
  function DecodeKeyStateUrl(key: Field, state: Field, url: Field)
    : (r: Result<(string, BuildStatusState, string), string>)
    ensures r.Ok? <==> key.Present? && key.value.JString? && state.Present? && StateFromJson(state.value).Ok?
                       && url.Present? && url.value.JString?
    ensures r.Ok? ==> key == Present(JString(r.value.0))
    ensures r.Ok? ==> state == Present(StateToJson(r.value.1))
    ensures r.Ok? ==> url == Present(JString(r.value.2))
  {
    var key :- Serde.Required(key, "key", Serde.AsString);
    var state :- Serde.Required(state, "state", StateFromJson);
    var url :- Serde.Required(url, "url", Serde.AsString);
    Ok((key, state, url))
  }

  lemma KeyStateUrlRoundTrip(key: string, state: BuildStatusState, url: string)
    ensures DecodeKeyStateUrl(Present(JString(key)), Present(StateToJson(state)), Present(JString(url)))
      == Ok((key, state, url))
  {
    StateRoundTrip(state);
    Serde.RequiredRoundTrip(key, "key", Serde.StringToJson, Serde.AsString);
    Serde.RequiredRoundTrip(state, "state", StateToJson, StateFromJson);
    Serde.RequiredRoundTrip(url, "url", Serde.StringToJson, Serde.AsString);
  }

  /** Counts of test results, each a u32. */
  datatype TestResults = TestResults(failed: Numeric.u32, successful: Numeric.u32, skipped: Numeric.u32)

  const TEST_RESULTS_KEYS: seq<string> := ["failed", "successful", "skipped"]

  /** The fields serialise in declaration order: failed, successful, skipped. */
  function TestResultsToJson(t: TestResults): Json {
    Object(TEST_RESULTS_KEYS, [Some(JNumber(t.failed)), Some(JNumber(t.successful)), Some(JNumber(t.skipped))])
  }

  /** The object written for `t` holds the three counts under their keys,
      in declaration order. */
  lemma TestResultsShape(t: TestResults)
    ensures TestResultsToJson(t).JObject? && Keys(TestResultsToJson(t).members) == TEST_RESULTS_KEYS
    ensures Lookup(TestResultsToJson(t).members, "failed") == Present(JNumber(t.failed))
    ensures Lookup(TestResultsToJson(t).members, "successful") == Present(JNumber(t.successful))
    ensures Lookup(TestResultsToJson(t).members, "skipped") == Present(JNumber(t.skipped))
  {
    var values := [Some(JNumber(t.failed)), Some(JNumber(t.successful)), Some(JNumber(t.skipped))];
    ObjectAt(TEST_RESULTS_KEYS, values, 0);
    ObjectAt(TEST_RESULTS_KEYS, values, 1);
    ObjectAt(TEST_RESULTS_KEYS, values, 2);
    ObjectShape(TEST_RESULTS_KEYS, values);
  }

  /** The derived `Deserialize`: the three counts, from an object by key or
      from an array of exactly three elements by position. */
  function TestResultsFromJson(j: Json): (r: Result<TestResults, string>)
    ensures r.Ok? ==> Serde.StructForm(j, 3)
    ensures r.Ok? ==> Serde.Slot(j, "failed", 0) == Present(JNumber(r.value.failed))
    ensures r.Ok? ==> Serde.Slot(j, "successful", 1) == Present(JNumber(r.value.successful))
    ensures r.Ok? ==> Serde.Slot(j, "skipped", 2) == Present(JNumber(r.value.skipped))
    ensures j.JArray? ==> (r.Ok? <==> |j.items| == 3 && forall i | 0 <= i < 3 :: Serde.AsU32(j.items[i]).Ok?)
  {
    if !Serde.StructForm(j, 3) then Err("invalid type or length: expected struct TestResults with 3 elements")
    else
      var failed :- Serde.Required(Serde.Slot(j, "failed", 0), "failed", Serde.AsU32);
      var successful :- Serde.Required(Serde.Slot(j, "successful", 1), "successful", Serde.AsU32);
      var skipped :- Serde.Required(Serde.Slot(j, "skipped", 2), "skipped", Serde.AsU32);
      Ok(TestResults(failed, successful, skipped))
  }

  /** The positional form: `[failed, successful, skipped]` reads as the
      counts in declaration order. */
  /** In the object form the counts decode exactly when each of the three
      keys occurs once with a u32 value, whatever else the object holds. */
  lemma TestResultsFromObject(j: Json, f: Numeric.u32, s: Numeric.u32, k: Numeric.u32)
    requires j.JObject?
    ensures TestResultsFromJson(j) == Ok(TestResults(f, s, k)) <==>
      (Lookup(j.members, "failed") == Present(JNumber(f)) &&
       Lookup(j.members, "successful") == Present(JNumber(s)) &&
       Lookup(j.members, "skipped") == Present(JNumber(k)))
  {
  }

  lemma TestResultsFromArray(t: TestResults)
    ensures TestResultsFromJson(JArray([JNumber(t.failed), JNumber(t.successful), JNumber(t.skipped)])) == Ok(t)
  {
  }

  /** The object written for `t`, member by member. */
  lemma TestResultsMembers(t: TestResults)
    ensures TestResultsToJson(t) == JObject([
      Member("failed", JNumber(t.failed)),
      Member("successful", JNumber(t.successful)),
      Member("skipped", JNumber(t.skipped))])
  {
    var values := [Some(JNumber(t.failed)), Some(JNumber(t.successful)), Some(JNumber(t.skipped))];
    CompactComplete(TEST_RESULTS_KEYS, values);
  }

  lemma TestResultsRoundTrip(t: TestResults)
    ensures TestResultsFromJson(TestResultsToJson(t)) == Ok(t)
  {
    TestResultsShape(t);
  }
}
