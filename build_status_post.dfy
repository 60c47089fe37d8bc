/** `POST api/latest/projects/{projectKey}/repos/{repositorySlug}/commits/{commitId}/builds`:
    the build-status payload, its serde form in both directions, and the
    request that carries it. */
module BuildStatusPost {
  import opened Wrappers
  import opened Json
  import Numeric
  import Serde
  import Client
  import BuildStatus

  /** `BuildStatusPostPayload`. `dateAdded` holds the epoch second of the
      `DateTime<Utc>`, which is all `ts_seconds_option` writes. */
  datatype BuildStatusPostPayload = BuildStatusPostPayload(
    key: string,
    state: BuildStatus.BuildStatusState,
    url: string,
    buildNumber: Option<string>,
    dateAdded: Option<Numeric.i64>,
    description: Option<string>,
    duration: Option<Numeric.u64>,
    name: Option<string>,
    parent: Option<string>,
    reference: Option<string>,
    testResults: Option<BuildStatus.TestResults>)

  /** The wire keys in declaration order (`rename_all = "camelCase"`, and
      `reference` renamed to `ref`). */
  const FIELD_ORDER: seq<string> :=
    ["key", "state", "url", "buildNumber", "dateAdded", "description",
     "duration", "name", "parent", "ref", "testResults"]

  lemma FieldOrderDistinct()
    ensures NoDuplicates(FIELD_ORDER)
  {
  }

  /** The derived `Default`: empty strings, the default state, no options. */
  function DefaultPayload(): BuildStatusPostPayload {
    BuildStatusPostPayload("", BuildStatus.DefaultState(), "", None, None, None, None, None, None, None, None)
  }

  /** The field values in `FIELD_ORDER`, None where serde skips the field. */
  function Values(p: BuildStatusPostPayload): seq<Option<Json>> {
    [Some(JString(p.key)),
     Some(BuildStatus.StateToJson(p.state)),
     Some(JString(p.url)),
     Serde.Emit(p.buildNumber, Serde.StringToJson),
     Serde.Emit(p.dateAdded, Serde.EpochSecondsToJson),
     Serde.Emit(p.description, Serde.StringToJson),
     Serde.Emit(p.duration, Serde.U64ToJson),
     Serde.Emit(p.name, Serde.StringToJson),
     Serde.Emit(p.parent, Serde.StringToJson),
     Serde.Emit(p.reference, Serde.StringToJson),
     Serde.Emit(p.testResults, BuildStatus.TestResultsToJson)]
  }

  /** The derived `Serialize`: the three plain fields always, each `Option`
      field only when it is Some, in declaration order. */
  function ToJson(p: BuildStatusPostPayload): (j: Json)
    ensures j.JObject?
    ensures IsSubsequence(Keys(j.members), FIELD_ORDER)
    ensures forall k | k !in FIELD_ORDER :: Lookup(j.members, k) == Absent
    ensures Lookup(j.members, "key") == Present(JString(p.key))
    ensures Lookup(j.members, "state") == Present(BuildStatus.StateToJson(p.state))
    ensures Lookup(j.members, "url") == Present(JString(p.url))
    ensures Lookup(j.members, "buildNumber") == FieldOf(Serde.Emit(p.buildNumber, Serde.StringToJson))
    ensures Lookup(j.members, "dateAdded") == FieldOf(Serde.Emit(p.dateAdded, Serde.EpochSecondsToJson))
    ensures Lookup(j.members, "description") == FieldOf(Serde.Emit(p.description, Serde.StringToJson))
    ensures Lookup(j.members, "duration") == FieldOf(Serde.Emit(p.duration, Serde.U64ToJson))
    ensures Lookup(j.members, "name") == FieldOf(Serde.Emit(p.name, Serde.StringToJson))
    ensures Lookup(j.members, "parent") == FieldOf(Serde.Emit(p.parent, Serde.StringToJson))
    ensures Lookup(j.members, "ref") == FieldOf(Serde.Emit(p.reference, Serde.StringToJson))
    ensures Lookup(j.members, "testResults") == FieldOf(Serde.Emit(p.testResults, BuildStatus.TestResultsToJson))
  {
    var values := Values(p);
    FieldOrderDistinct();
    ObjectAt(FIELD_ORDER, values, 0);
    ObjectAt(FIELD_ORDER, values, 1);
    ObjectAt(FIELD_ORDER, values, 2);
    ObjectAt(FIELD_ORDER, values, 3);
    ObjectAt(FIELD_ORDER, values, 4);
    ObjectAt(FIELD_ORDER, values, 5);
    ObjectAt(FIELD_ORDER, values, 6);
    ObjectAt(FIELD_ORDER, values, 7);
    ObjectAt(FIELD_ORDER, values, 8);
    ObjectAt(FIELD_ORDER, values, 9);
    ObjectAt(FIELD_ORDER, values, 10);
    ObjectOutsideAll(FIELD_ORDER, values);
    ObjectShape(FIELD_ORDER, values);
    Object(FIELD_ORDER, values)
  }

  /** A None field is left out, never written as `null`. */
  lemma NeverNull(p: BuildStatusPostPayload)
    ensures forall i | 0 <= i < |ToJson(p).members| :: ToJson(p).members[i].value != JNull
  {
    assert Some(JNull) !in Values(p);
    ObjectShape(FIELD_ORDER, Values(p));
  }

  /** The derived `Deserialize`: reads every declared key of an object
      (other keys are ignored), or the eleven elements of an array by
      position, and decodes the fields in declaration order, the first
      failure ending the decoding; only the reading of a missing
      `dateAdded` depends on `missing`. */
  function Decode(j: Json, missing: Serde.MissingTimestamp): (r: Result<BuildStatusPostPayload, string>)
    ensures r.Ok? ==> Serde.StructForm(j, 11)
    ensures r.Ok? ==> Serde.Slot(j, "key", 0) == Present(JString(r.value.key))
    ensures r.Ok? ==> Serde.Slot(j, "state", 1) == Present(BuildStatus.StateToJson(r.value.state))
    ensures r.Ok? ==> Serde.Slot(j, "url", 2) == Present(JString(r.value.url))
    ensures j.JObject? && missing == Serde.MissingIsError && Lookup(j.members, "dateAdded") == Absent ==> r.Err?
  {
    if !Serde.StructForm(j, 11) then Err("invalid type or length: expected struct BuildStatusPostPayload with 11 elements")
    else
      DecodeFields(j, DecodeDetails(Serde.Slot(j, "buildNumber", 3), Serde.Slot(j, "dateAdded", 4),
                                    Serde.Slot(j, "description", 5), Serde.Slot(j, "duration", 6), missing))
  }

  /** The fields in declaration order, given the outcome of reading
      buildNumber, dateAdded, description and duration. */
  function DecodeFields(j: Json,
                        details: Result<(Option<string>, Option<Numeric.i64>, Option<string>, Option<Numeric.u64>), string>)
    : (r: Result<BuildStatusPostPayload, string>)
    requires Serde.StructForm(j, 11)
    ensures r.Ok? ==> Serde.Slot(j, "key", 0) == Present(JString(r.value.key))
    ensures r.Ok? ==> Serde.Slot(j, "state", 1) == Present(BuildStatus.StateToJson(r.value.state))
    ensures r.Ok? ==> Serde.Slot(j, "url", 2) == Present(JString(r.value.url))
    ensures r.Ok? ==> details.Ok? && r.value.dateAdded == details.value.1
  {
    var required :- BuildStatus.DecodeKeyStateUrl(Serde.Slot(j, "key", 0), Serde.Slot(j, "state", 1), Serde.Slot(j, "url", 2));
    var details :- details;
    var extras :- DecodeExtras(Serde.Slot(j, "name", 7), Serde.Slot(j, "parent", 8), Serde.Slot(j, "ref", 9),
                               Serde.Slot(j, "testResults", 10));
    Ok(BuildStatusPostPayload(required.0, required.1, required.2,
                              details.0, details.1, details.2, details.3,
                              extras.0, extras.1, extras.2, extras.3))
  }

  /** An object decodes by what its declared keys look up to and nothing
      else: the order of the members and any undeclared key play no part. */
  lemma DecodeByLookups(j1: Json, j2: Json, missing: Serde.MissingTimestamp)
    requires j1.JObject? && j2.JObject?
    requires forall k | k in FIELD_ORDER :: Lookup(j1.members, k) == Lookup(j2.members, k)
    ensures Decode(j1, missing) == Decode(j2, missing)
  {
    var details := DecodeDetails(Lookup(j1.members, "buildNumber"), Lookup(j1.members, "dateAdded"),
                                 Lookup(j1.members, "description"), Lookup(j1.members, "duration"), missing);
    assert Decode(j1, missing) == DecodeFields(j1, details);
    assert Decode(j2, missing) == DecodeFields(j2, details) by {
      assert "buildNumber" in FIELD_ORDER && "dateAdded" in FIELD_ORDER;
      assert "description" in FIELD_ORDER && "duration" in FIELD_ORDER;
    }
    DecodeFieldsByLookups(j1, j2, details);
  }

  lemma DecodeFieldsByLookups(j1: Json, j2: Json,
                              details: Result<(Option<string>, Option<Numeric.i64>, Option<string>, Option<Numeric.u64>), string>)
    requires j1.JObject? && j2.JObject?
    requires forall k | k in FIELD_ORDER :: Lookup(j1.members, k) == Lookup(j2.members, k)
    ensures DecodeFields(j1, details) == DecodeFields(j2, details)
  {
    assert "key" in FIELD_ORDER && "state" in FIELD_ORDER && "url" in FIELD_ORDER;
    assert "name" in FIELD_ORDER && "parent" in FIELD_ORDER && "ref" in FIELD_ORDER && "testResults" in FIELD_ORDER;
  }


  /** buildNumber, dateAdded, description, duration. */
  function DecodeDetails(buildNumber: Field, dateAdded: Field, description: Field, duration: Field,
                         missing: Serde.MissingTimestamp)
    : (r: Result<(Option<string>, Option<Numeric.i64>, Option<string>, Option<Numeric.u64>), string>)
    ensures missing == Serde.MissingIsError && dateAdded == Absent ==> r.Err?
    ensures missing == Serde.MissingIsNone && r.Ok? && dateAdded == Absent ==> r.value.1.None?
  {
    var buildNumber :- Serde.Optional(buildNumber, "buildNumber", Serde.AsString);
    var dateAdded :- Serde.EpochSecondsOption(dateAdded, "dateAdded", missing);
    var description :- Serde.Optional(description, "description", Serde.AsString);
    var duration :- Serde.Optional(duration, "duration", Serde.AsU64);
    Ok((buildNumber, dateAdded, description, duration))
  }

  /** name, parent, ref, testResults. */
  function DecodeExtras(name: Field, parent: Field, reference: Field, testResults: Field)
    : Result<(Option<string>, Option<string>, Option<string>, Option<BuildStatus.TestResults>), string>
  {
    var name :- Serde.Optional(name, "name", Serde.AsString);
    var parent :- Serde.Optional(parent, "parent", Serde.AsString);
    var reference :- Serde.Optional(reference, "ref", Serde.AsString);
    var testResults :- Serde.Optional(testResults, "testResults", BuildStatus.TestResultsFromJson);
    Ok((name, parent, reference, testResults))
  }

  /** The decoder as the source derives it: a missing `dateAdded` is an
      error; with the key there, and in the array form, it reads exactly as
      the corrected one. */
  function FromJsonAsWritten(j: Json): (r: Result<BuildStatusPostPayload, string>)
    ensures j.JObject? && Lookup(j.members, "dateAdded") == Absent ==> r.Err?
    ensures j.JObject? && Lookup(j.members, "dateAdded") != Absent ==> r == FromJson(j)
    ensures j.JArray? ==> r == FromJson(j)
  {
    if Serde.StructForm(j, 11) && Serde.Slot(j, "dateAdded", 4) != Absent then
      DecodeDetailsAgree(Serde.Slot(j, "buildNumber", 3), Serde.Slot(j, "dateAdded", 4),
                         Serde.Slot(j, "description", 5), Serde.Slot(j, "duration", 6));
      Decode(j, Serde.MissingIsError)
    else
      Decode(j, Serde.MissingIsError)
  }

  /** The decoder the `Option` type promises: a missing `dateAdded` is None. */
  function FromJson(j: Json): (r: Result<BuildStatusPostPayload, string>)
    ensures r.Ok? ==> Serde.StructForm(j, 11)
    ensures r.Ok? && j.JObject? && Lookup(j.members, "dateAdded") == Absent ==> r.value.dateAdded.None?
  {
    Decode(j, Serde.MissingIsNone)
  }

  /** The two readings of `dateAdded` differ only on a missing key. */
  lemma DecodeDetailsAgree(buildNumber: Field, dateAdded: Field, description: Field, duration: Field)
    requires dateAdded != Absent
    ensures DecodeDetails(buildNumber, dateAdded, description, duration, Serde.MissingIsError)
         == DecodeDetails(buildNumber, dateAdded, description, duration, Serde.MissingIsNone)
  {
  }

  lemma DetailsValues(p: BuildStatusPostPayload, missing: Serde.MissingTimestamp)
    requires missing == Serde.MissingIsError ==> p.dateAdded.Some?
    ensures DecodeDetails(FieldOf(Serde.Emit(p.buildNumber, Serde.StringToJson)),
                          FieldOf(Serde.Emit(p.dateAdded, Serde.EpochSecondsToJson)),
                          FieldOf(Serde.Emit(p.description, Serde.StringToJson)),
                          FieldOf(Serde.Emit(p.duration, Serde.U64ToJson)), missing)
      == Ok((p.buildNumber, p.dateAdded, p.description, p.duration))
  {
    Serde.OptionalRoundTrip(p.buildNumber, "buildNumber", Serde.StringToJson, Serde.AsString);
    Serde.OptionalRoundTrip(p.dateAdded, "dateAdded", Serde.EpochSecondsToJson, Serde.AsEpochSeconds);
    Serde.OptionalRoundTrip(p.description, "description", Serde.StringToJson, Serde.AsString);
    Serde.OptionalRoundTrip(p.duration, "duration", Serde.U64ToJson, Serde.AsU64);
  }

  lemma ExtrasValues(p: BuildStatusPostPayload)
    ensures DecodeExtras(FieldOf(Serde.Emit(p.name, Serde.StringToJson)),
                         FieldOf(Serde.Emit(p.parent, Serde.StringToJson)),
                         FieldOf(Serde.Emit(p.reference, Serde.StringToJson)),
                         FieldOf(Serde.Emit(p.testResults, BuildStatus.TestResultsToJson)))
      == Ok((p.name, p.parent, p.reference, p.testResults))
  {
    Serde.OptionalRoundTrip(p.name, "name", Serde.StringToJson, Serde.AsString);
    Serde.OptionalRoundTrip(p.parent, "parent", Serde.StringToJson, Serde.AsString);
    Serde.OptionalRoundTrip(p.reference, "ref", Serde.StringToJson, Serde.AsString);
    if p.testResults.Some? {
      BuildStatus.TestResultsRoundTrip(p.testResults.value);
    }
  }

  /** Decoding what was serialised gives back the payload; the derived
      reading of a missing `dateAdded` also needs the date to be there. */
  lemma DecodeToJson(p: BuildStatusPostPayload, missing: Serde.MissingTimestamp)
    requires missing == Serde.MissingIsError ==> p.dateAdded.Some?
    ensures Decode(ToJson(p), missing) == Ok(p)
  {
    BuildStatus.KeyStateUrlRoundTrip(p.key, p.state, p.url);
    DetailsValues(p, missing);
    ExtrasValues(p);
  }

  /** Decoding what was serialised gives back the payload. */
  lemma RoundTrip(p: BuildStatusPostPayload)
    ensures FromJson(ToJson(p)) == Ok(p)
  {
    DecodeToJson(p, Serde.MissingIsNone);
  }

  /** The derived decoder round-trips a payload that carries a `dateAdded`. */
  lemma AsWrittenRoundTripWithDate(p: BuildStatusPostPayload)
    requires p.dateAdded.Some?
    ensures FromJsonAsWritten(ToJson(p)) == Ok(p)
  {
    DecodeToJson(p, Serde.MissingIsError);
  }

  /** ...and rejects every payload it serialised without one. */
  lemma AsWrittenRejectsMissingDate(p: BuildStatusPostPayload)
    requires p.dateAdded.None?
    ensures FromJsonAsWritten(ToJson(p)).Err?
  {
  }

  /** The payload in the array form serde_json also accepts: every field in
      declaration order, None as `null`. */
  function Positional(p: BuildStatusPostPayload): seq<Json> {
    [JString(p.key),
     BuildStatus.StateToJson(p.state),
     JString(p.url),
     Serde.OrNull(Serde.Emit(p.buildNumber, Serde.StringToJson)),
     Serde.OrNull(Serde.Emit(p.dateAdded, Serde.EpochSecondsToJson)),
     Serde.OrNull(Serde.Emit(p.description, Serde.StringToJson)),
     Serde.OrNull(Serde.Emit(p.duration, Serde.U64ToJson)),
     Serde.OrNull(Serde.Emit(p.name, Serde.StringToJson)),
     Serde.OrNull(Serde.Emit(p.parent, Serde.StringToJson)),
     Serde.OrNull(Serde.Emit(p.reference, Serde.StringToJson)),
     Serde.OrNull(Serde.Emit(p.testResults, BuildStatus.TestResultsToJson))]
  }

  lemma DetailsPositional(p: BuildStatusPostPayload, missing: Serde.MissingTimestamp)
    ensures DecodeDetails(Present(Serde.OrNull(Serde.Emit(p.buildNumber, Serde.StringToJson))),
                          Present(Serde.OrNull(Serde.Emit(p.dateAdded, Serde.EpochSecondsToJson))),
                          Present(Serde.OrNull(Serde.Emit(p.description, Serde.StringToJson))),
                          Present(Serde.OrNull(Serde.Emit(p.duration, Serde.U64ToJson))), missing)
      == Ok((p.buildNumber, p.dateAdded, p.description, p.duration))
  {
    Serde.OptionalPositional(p.buildNumber, "buildNumber", Serde.StringToJson, Serde.AsString);
    Serde.OptionalPositional(p.dateAdded, "dateAdded", Serde.EpochSecondsToJson, Serde.AsEpochSeconds);
    Serde.OptionalPositional(p.description, "description", Serde.StringToJson, Serde.AsString);
    Serde.OptionalPositional(p.duration, "duration", Serde.U64ToJson, Serde.AsU64);
  }

  lemma ExtrasPositional(p: BuildStatusPostPayload)
    ensures DecodeExtras(Present(Serde.OrNull(Serde.Emit(p.name, Serde.StringToJson))),
                         Present(Serde.OrNull(Serde.Emit(p.parent, Serde.StringToJson))),
                         Present(Serde.OrNull(Serde.Emit(p.reference, Serde.StringToJson))),
                         Present(Serde.OrNull(Serde.Emit(p.testResults, BuildStatus.TestResultsToJson))))
      == Ok((p.name, p.parent, p.reference, p.testResults))
  {
    Serde.OptionalPositional(p.name, "name", Serde.StringToJson, Serde.AsString);
    Serde.OptionalPositional(p.parent, "parent", Serde.StringToJson, Serde.AsString);
    Serde.OptionalPositional(p.reference, "ref", Serde.StringToJson, Serde.AsString);
    if p.testResults.Some? {
      BuildStatus.TestResultsShape(p.testResults.value);
      BuildStatus.TestResultsRoundTrip(p.testResults.value);
    }
    Serde.OptionalPositional(p.testResults, "testResults", BuildStatus.TestResultsToJson, BuildStatus.TestResultsFromJson);
  }

  /** Read by position, every payload comes back, and both readings of
      `dateAdded` agree, since no element can be missing. */
  lemma PositionalRoundTrip(p: BuildStatusPostPayload)
    ensures FromJson(JArray(Positional(p))) == Ok(p)
    ensures FromJsonAsWritten(JArray(Positional(p))) == Ok(p)
  {
    BuildStatus.KeyStateUrlRoundTrip(p.key, p.state, p.url);
    DetailsPositional(p, Serde.MissingIsNone);
    ExtrasPositional(p);
  }

  /** With every option set, all eleven keys appear, in declaration order. */
  lemma FullPayloadKeys(p: BuildStatusPostPayload)
    requires p.buildNumber.Some? && p.dateAdded.Some? && p.description.Some?
    requires p.duration.Some? && p.name.Some? && p.parent.Some?
    requires p.reference.Some? && p.testResults.Some?
    ensures Keys(ToJson(p).members) == FIELD_ORDER
  {
    assert None !in Values(p);
    ObjectShape(FIELD_ORDER, Values(p));
  }

  /** The payload of the `it_can_serialize` unit test; 1738198923 is
      2025-01-30T01:02:03Z. */
  function FullFixture(): BuildStatusPostPayload {
    BuildStatusPostPayload("KEY", BuildStatus.Successful, "URL", Some("1"), Some(1738198923),
      Some("DESCRIPTION"), Some(12), Some("NAME"), Some("PARENT"), Some("REF"),
      Some(BuildStatus.TestResults(2, 3, 1)))
  }

  /** The payload of the `it_can_serialize_partially` unit test. */
  function PartialFixture(): BuildStatusPostPayload {
    BuildStatusPostPayload("KEY", BuildStatus.Successful, "URL", None, None, None, None, None, None, None, None)
  }

  /** The eleven members a payload with every option set writes. */
  function FullMemberList(p: BuildStatusPostPayload): seq<Member>
    requires p.buildNumber.Some? && p.dateAdded.Some? && p.description.Some?
    requires p.duration.Some? && p.name.Some? && p.parent.Some?
    requires p.reference.Some? && p.testResults.Some?
  {
    [Member("key", JString(p.key)),
     Member("state", BuildStatus.StateToJson(p.state)),
     Member("url", JString(p.url)),
     Member("buildNumber", JString(p.buildNumber.value)),
     Member("dateAdded", JNumber(p.dateAdded.value)),
     Member("description", JString(p.description.value)),
     Member("duration", JNumber(p.duration.value)),
     Member("name", JString(p.name.value)),
     Member("parent", JString(p.parent.value)),
     Member("ref", JString(p.reference.value)),
     Member("testResults", BuildStatus.TestResultsToJson(p.testResults.value))]
  }

  /** With every option set, the members are the eleven fields in
      declaration order. */
  lemma FullMembers(p: BuildStatusPostPayload)
    requires p.buildNumber.Some? && p.dateAdded.Some? && p.description.Some?
    requires p.duration.Some? && p.name.Some? && p.parent.Some?
    requires p.reference.Some? && p.testResults.Some?
    ensures ToJson(p).members == FullMemberList(p)
  {
    FullCompact(p);
  }

  /** With every option set, the members are exactly the eleven fields. The
      induction is `Json.CompactComplete`; the index-by-index comparison is
      split over `FullCompactLow`, `FullCompactMid` and `FullCompactHigh` only
      because one lemma comparing all eleven members is several times as
      expensive for the solver. */
  lemma FullCompact(p: BuildStatusPostPayload)
    requires p.buildNumber.Some? && p.dateAdded.Some? && p.description.Some?
    requires p.duration.Some? && p.name.Some? && p.parent.Some?
    requires p.reference.Some? && p.testResults.Some?
    ensures Compact(FIELD_ORDER, Values(p)) == FullMemberList(p)
  {
    FullCompactLow(p);
    FullCompactMid(p);
    FullCompactHigh(p);
    SameMembers(Compact(FIELD_ORDER, Values(p)), FullMemberList(p));
  }

  lemma FullCompactLow(p: BuildStatusPostPayload)
    requires p.buildNumber.Some? && p.dateAdded.Some? && p.description.Some?
    requires p.duration.Some? && p.name.Some? && p.parent.Some?
    requires p.reference.Some? && p.testResults.Some?
    ensures |Compact(FIELD_ORDER, Values(p))| == 11
    ensures Compact(FIELD_ORDER, Values(p))[0] == FullMemberList(p)[0]
    ensures Compact(FIELD_ORDER, Values(p))[1] == FullMemberList(p)[1]
    ensures Compact(FIELD_ORDER, Values(p))[2] == FullMemberList(p)[2]
    ensures Compact(FIELD_ORDER, Values(p))[3] == FullMemberList(p)[3]
  {
    assert None !in Values(p);
    CompactComplete(FIELD_ORDER, Values(p));
  }

  lemma FullCompactMid(p: BuildStatusPostPayload)
    requires p.buildNumber.Some? && p.dateAdded.Some? && p.description.Some?
    requires p.duration.Some? && p.name.Some? && p.parent.Some?
    requires p.reference.Some? && p.testResults.Some?
    ensures |Compact(FIELD_ORDER, Values(p))| == 11
    ensures Compact(FIELD_ORDER, Values(p))[4] == FullMemberList(p)[4]
    ensures Compact(FIELD_ORDER, Values(p))[5] == FullMemberList(p)[5]
    ensures Compact(FIELD_ORDER, Values(p))[6] == FullMemberList(p)[6]
    ensures Compact(FIELD_ORDER, Values(p))[7] == FullMemberList(p)[7]
  {
    assert None !in Values(p);
    CompactComplete(FIELD_ORDER, Values(p));
  }

  lemma FullCompactHigh(p: BuildStatusPostPayload)
    requires p.buildNumber.Some? && p.dateAdded.Some? && p.description.Some?
    requires p.duration.Some? && p.name.Some? && p.parent.Some?
    requires p.reference.Some? && p.testResults.Some?
    ensures |Compact(FIELD_ORDER, Values(p))| == 11
    ensures Compact(FIELD_ORDER, Values(p))[8] == FullMemberList(p)[8]
    ensures Compact(FIELD_ORDER, Values(p))[9] == FullMemberList(p)[9]
    ensures Compact(FIELD_ORDER, Values(p))[10] == FullMemberList(p)[10]
  {
    assert None !in Values(p);
    CompactComplete(FIELD_ORDER, Values(p));
  }

  /** Two member lists of eleven that agree index by index are equal. */
  lemma SameMembers(ms: seq<Member>, ns: seq<Member>)
    requires |ms| == |ns| == 11
    requires ms[0] == ns[0] && ms[1] == ns[1] && ms[2] == ns[2] && ms[3] == ns[3]
    requires ms[4] == ns[4] && ms[5] == ns[5] && ms[6] == ns[6] && ms[7] == ns[7]
    requires ms[8] == ns[8] && ms[9] == ns[9] && ms[10] == ns[10]
    ensures ms == ns
  {
  }

  /** With no option set, only the three plain fields are written. */
  lemma BareMembers(p: BuildStatusPostPayload)
    requires p.buildNumber.None? && p.dateAdded.None? && p.description.None?
    requires p.duration.None? && p.name.None? && p.parent.None?
    requires p.reference.None? && p.testResults.None?
    ensures ToJson(p).members == [
      Member("key", JString(p.key)),
      Member("state", BuildStatus.StateToJson(p.state)),
      Member("url", JString(p.url))]
  {
    var values := Values(p);
    CompactPrefix(FIELD_ORDER, values, 3);
    CompactComplete(FIELD_ORDER[..3], values[..3]);
  }

  /** The derived `Default` payload, which `..Default::default()` fills
      the unnamed fields from, serialises to the three plain fields alone:
      empty key and url, state `UNKNOWN`. */
  lemma DefaultPayloadJson()
    ensures ToJson(DefaultPayload()) == JObject([
      Member("key", JString("")),
      Member("state", JString("UNKNOWN")),
      Member("url", JString(""))])
  {
    BareMembers(DefaultPayload());
  }

  /** The object `it_can_serialize` expects, member by member. */
  lemma FullFixtureJson()
    ensures ToJson(FullFixture()) == JObject([
      Member("key", JString("KEY")),
      Member("state", JString("SUCCESSFUL")),
      Member("url", JString("URL")),
      Member("buildNumber", JString("1")),
      Member("dateAdded", JNumber(1738198923)),
      Member("description", JString("DESCRIPTION")),
      Member("duration", JNumber(12)),
      Member("name", JString("NAME")),
      Member("parent", JString("PARENT")),
      Member("ref", JString("REF")),
      Member("testResults", JObject([
        Member("failed", JNumber(2)), Member("successful", JNumber(3)), Member("skipped", JNumber(1))]))])
  {
    FullMembers(FullFixture());
    BuildStatus.TestResultsMembers(BuildStatus.TestResults(2, 3, 1));
  }

  /** The object `it_can_serialize_partially` expects: the three plain
      fields and nothing else. */
  lemma PartialFixtureJson()
    ensures ToJson(PartialFixture()) == JObject([
      Member("key", JString("KEY")),
      Member("state", JString("SUCCESSFUL")),
      Member("url", JString("URL"))])
  {
    BareMembers(PartialFixture());
  }

  /** The derived decoder cannot read back the partial fixture's own text,
      the corrected one can. */
  lemma PartialFixtureDecoding()
    ensures FromJsonAsWritten(ToJson(PartialFixture())).Err?
    ensures FromJson(ToJson(PartialFixture())) == Ok(PartialFixture())
  {
    RoundTrip(PartialFixture());
  }

  /** `BuildStatusPost`, the request `Api::build_status_post` returns. */
  datatype BuildStatusPost = BuildStatusPost(
    client: Client.Client,
    projectKey: string,
    commitId: string,
    repositorySlug: string,
    buildStatus: BuildStatusPostPayload)

  /** `Api::build_status_post`; the repository slug comes before the
      commit id among the arguments. */
  function NewBuildStatusPost(client: Client.Client, projectKey: string, repositorySlug: string,
                              commitId: string, buildStatus: BuildStatusPostPayload): (r: BuildStatusPost)
    ensures RequestUri(r) ==
      "api/latest/projects/" + projectKey + "/repos/" + repositorySlug + "/commits/" + commitId + "/builds"
    ensures r.client == client && r.buildStatus == buildStatus
  {
    BuildStatusPost(client, projectKey, commitId, repositorySlug, buildStatus)
  }

  /** The path below the base URL: the REST API's `latest` version, then
      the project, repository and commit, ending in `/builds`. */
  function RequestUri(req: BuildStatusPost): (u: string)
    ensures "api/latest/projects/" + req.projectKey + "/repos/" <= u
    ensures |u| >= 7 && u[|u| - 7..] == "/builds"
  {
    var u := "api/latest/projects/" + req.projectKey + "/repos/" + req.repositorySlug + "/commits/" + req.commitId
      + "/builds";
    assert u[|u| - 7..] == "/builds";
    u
  }

  /** The request `send` issues: a POST of the serialised payload to the
      builds path of the commit. */
  function Request(req: BuildStatusPost): (r: Client.HttpRequest)
    reads req.client
    ensures r.verb == Client.POST && r.query == map[]
    ensures r.url == req.client.basePath + "/" + RequestUri(req)
    ensures r.body == Some(Render(ToJson(req.buildStatus)))
    ensures Client.HeaderValue(r.headers, "Authorization") == Some("Bearer " + req.client.apiToken)
  {
    req.client.PostRequest(RequestUri(req), Render(ToJson(req.buildStatus)))
  }

  /** `Output = ()`: an empty body is `Ok(None)`, `null` is `()`. */
  function OutputDecoder(parse: string -> Result<Json, string>): (f: string -> Result<(), string>)
    ensures forall text :: parse(text).Err? ==> f(text).Err?
    ensures forall text :: parse(text).Ok? ==> (f(text).Ok? <==> parse(text).value == JNull)
  {
    Serde.FromText(parse, Serde.UnitFromJson)
  }

  /** `ApiRequest::send` for `BuildStatusPost`. */
  method Send(req: BuildStatusPost, parse: string -> Result<Json, string>) returns (r: Client.ApiResponse<()>)
    ensures r == Client.Execute(req.client.httpClient(Request(req)), OutputDecoder(parse))
  {
    var uri := "api/latest/projects/" + req.projectKey + "/repos/" + req.repositorySlug
      + "/commits/" + req.commitId + "/builds";
    var body := Render(ToJson(req.buildStatus));
    r := req.client.Post(uri, body, OutputDecoder(parse));
  }

  /** What the server's answer to the POST becomes: the `204 No Content`
      Bitbucket sends is success with nothing, and a 2xx body other than
      `null` is a deserialization error. */
  lemma SendResults(response: Client.Response, parse: string -> Result<Json, string>)
    requires Client.IsSuccess(response.status) && response.body.Text?
    ensures response.body.text == "" ==>
      Client.Execute(Client.Sent(response), OutputDecoder(parse)) == Ok(None)
    ensures response.body.text != "" && parse(response.body.text) == Ok(JNull) ==>
      Client.Execute(Client.Sent(response), OutputDecoder(parse)) == Ok(Some(()))
    ensures response.body.text != "" && parse(response.body.text).Ok? && parse(response.body.text).value != JNull ==>
      Client.Execute(Client.Sent(response), OutputDecoder(parse)).Err? &&
      Client.Execute(Client.Sent(response), OutputDecoder(parse)).error.DeserializationError?
  {
  }

  /** The integration test in tests/api_build_status_post.rs passes the
      commit id where this signature takes the repository slug, so its
      request goes to a path other than the one its mock server expects. */
  lemma IntegrationTestArgumentOrder(client: Client.Client, p: BuildStatusPostPayload)
    ensures RequestUri(NewBuildStatusPost(client, "PROJECT_KEY", "COMMIT_ID", "REPOSITORY_SLUG", p)) !=
      "api/latest/projects/PROJECT_KEY/repos/REPOSITORY_SLUG/commits/COMMIT_ID/builds"
  {
    var u := RequestUri(NewBuildStatusPost(client, "PROJECT_KEY", "COMMIT_ID", "REPOSITORY_SLUG", p));
    assert u[38] != "api/latest/projects/PROJECT_KEY/repos/REPOSITORY_SLUG/commits/COMMIT_ID/builds"[38];
  }
}
