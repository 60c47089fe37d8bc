/** `GET api/latest/projects/{projectKey}/repos/{repositorySlug}/commits/{commitId}/builds`:
    the build status the server returns, its serde form in both directions,
    the request and its query, and the builder `Api::build_status_get`
    hands out. */
module BuildStatusGet {
  import opened Wrappers
  import opened Json
  import Numeric
  import Serde
  import Client
  import Shared = BuildStatus

  /** `BuildStatus`. Both dates hold the epoch second of the
      `DateTime<Utc>`, which is all `ts_seconds_option` reads and writes. */
  datatype BuildStatus = BuildStatus(
    key: string,
    state: Shared.BuildStatusState,
    url: string,
    buildNumber: Option<string>,
    updatedDate: Option<Numeric.i64>,
    createdDate: Option<Numeric.i64>,
    description: Option<string>,
    duration: Option<Numeric.u64>,
    name: Option<string>,
    parent: Option<string>,
    reference: Option<string>,
    testResults: Option<Shared.TestResults>)

  /** The wire keys in declaration order (`rename_all = "camelCase"`, and
      `reference` renamed to `ref`). */
  const FIELD_ORDER: seq<string> :=
    ["key", "state", "url", "buildNumber", "updatedDate", "createdDate", "description",
     "duration", "name", "parent", "ref", "testResults"]

  lemma FieldOrderDistinct()
    ensures NoDuplicates(FIELD_ORDER)
  {
  }

  /** The field values in `FIELD_ORDER`, None where serde skips the field. */
  function Values(b: BuildStatus): seq<Option<Json>> {
    [Some(JString(b.key)),
     Some(Shared.StateToJson(b.state)),
     Some(JString(b.url)),
     Serde.Emit(b.buildNumber, Serde.StringToJson),
     Serde.Emit(b.updatedDate, Serde.EpochSecondsToJson),
     Serde.Emit(b.createdDate, Serde.EpochSecondsToJson),
     Serde.Emit(b.description, Serde.StringToJson),
     Serde.Emit(b.duration, Serde.U64ToJson),
     Serde.Emit(b.name, Serde.StringToJson),
     Serde.Emit(b.parent, Serde.StringToJson),
     Serde.Emit(b.reference, Serde.StringToJson),
     Serde.Emit(b.testResults, Shared.TestResultsToJson)]
  }

  /** The derived `Serialize`: the three plain fields always, each `Option`
      field only when it is Some, in declaration order. */
  function ToJson(b: BuildStatus): (j: Json)
    ensures j.JObject?
    ensures IsSubsequence(Keys(j.members), FIELD_ORDER)
    ensures forall k | k !in FIELD_ORDER :: Lookup(j.members, k) == Absent
    ensures Lookup(j.members, "key") == Present(JString(b.key))
    ensures Lookup(j.members, "state") == Present(Shared.StateToJson(b.state))
    ensures Lookup(j.members, "url") == Present(JString(b.url))
    ensures Lookup(j.members, "buildNumber") == FieldOf(Serde.Emit(b.buildNumber, Serde.StringToJson))
    ensures Lookup(j.members, "updatedDate") == FieldOf(Serde.Emit(b.updatedDate, Serde.EpochSecondsToJson))
    ensures Lookup(j.members, "createdDate") == FieldOf(Serde.Emit(b.createdDate, Serde.EpochSecondsToJson))
    ensures Lookup(j.members, "description") == FieldOf(Serde.Emit(b.description, Serde.StringToJson))
    ensures Lookup(j.members, "duration") == FieldOf(Serde.Emit(b.duration, Serde.U64ToJson))
    ensures Lookup(j.members, "name") == FieldOf(Serde.Emit(b.name, Serde.StringToJson))
    ensures Lookup(j.members, "parent") == FieldOf(Serde.Emit(b.parent, Serde.StringToJson))
    ensures Lookup(j.members, "ref") == FieldOf(Serde.Emit(b.reference, Serde.StringToJson))
    ensures Lookup(j.members, "testResults") == FieldOf(Serde.Emit(b.testResults, Shared.TestResultsToJson))
  {
    var values := Values(b);
    FieldOrderDistinct();
    ObjectAt(FIELD_ORDER, values, 0);
    ObjectAt(FIELD_ORDER, values, 1);
    ObjectAt(FIELD_ORDER, values, 2);
    ObjectAt(FIELD_ORDER, values, 3);
    ObjectAt(FIELD_ORDER, values, 4);
    ObjectAt(FIELD_ORDER, values, 5);
    ObjectAt(FIELD_ORDER, values, 6);
    ObjectAt(FIELD_ORDER, values, 7);
    ObjectAt(FIELD_ORDER, values, 8);
    ObjectAt(FIELD_ORDER, values, 9);
    ObjectAt(FIELD_ORDER, values, 10);
    ObjectAt(FIELD_ORDER, values, 11);
    ObjectOutsideAll(FIELD_ORDER, values);
    ObjectShape(FIELD_ORDER, values);
    Object(FIELD_ORDER, values)
  }

  /** A None field is left out, never written as `null`. */
  lemma NeverNull(b: BuildStatus)
    ensures forall i | 0 <= i < |ToJson(b).members| :: ToJson(b).members[i].value != JNull
  {
    assert Some(JNull) !in Values(b);
    ObjectShape(FIELD_ORDER, Values(b));
  }

  /** With every option set, all twelve keys appear, in declaration order. */
  lemma FullKeys(b: BuildStatus)
    requires b.buildNumber.Some? && b.updatedDate.Some? && b.createdDate.Some?
    requires b.description.Some? && b.duration.Some? && b.name.Some?
    requires b.parent.Some? && b.reference.Some? && b.testResults.Some?
    ensures Keys(ToJson(b).members) == FIELD_ORDER
  {
    assert None !in Values(b);
    ObjectShape(FIELD_ORDER, Values(b));
  }

  /** The derived `Deserialize`: reads every declared key of an object
      (other keys are ignored), or the twelve elements of an array by
      position, and decodes the fields in declaration order, the first
      failure ending the decoding; only the reading of a missing date
      depends on `missing`. */
  function Decode(j: Json, missing: Serde.MissingTimestamp): (r: Result<BuildStatus, string>)
    ensures r.Ok? ==> Serde.StructForm(j, 12)
    ensures r.Ok? ==> Serde.Slot(j, "key", 0) == Present(JString(r.value.key))
    ensures r.Ok? ==> Serde.Slot(j, "state", 1) == Present(Shared.StateToJson(r.value.state))
    ensures r.Ok? ==> Serde.Slot(j, "url", 2) == Present(JString(r.value.url))
    ensures j.JObject? && missing == Serde.MissingIsError && Lookup(j.members, "updatedDate") == Absent ==> r.Err?
    ensures j.JObject? && missing == Serde.MissingIsError && Lookup(j.members, "createdDate") == Absent ==> r.Err?
  {
    if !Serde.StructForm(j, 12) then Err("invalid type or length: expected struct BuildStatus with 12 elements")
    else
      DecodeFields(j, DecodeDates(Serde.Slot(j, "buildNumber", 3), Serde.Slot(j, "updatedDate", 4),
                                  Serde.Slot(j, "createdDate", 5), missing))
  }

  /** The fields in declaration order, given the outcome of reading
      buildNumber and the dates. */
  function DecodeFields(j: Json, dates: Result<(Option<string>, Option<Numeric.i64>, Option<Numeric.i64>), string>)
    : (r: Result<BuildStatus, string>)
    requires Serde.StructForm(j, 12)
    ensures r.Ok? ==> Serde.Slot(j, "key", 0) == Present(JString(r.value.key))
    ensures r.Ok? ==> Serde.Slot(j, "state", 1) == Present(Shared.StateToJson(r.value.state))
    ensures r.Ok? ==> Serde.Slot(j, "url", 2) == Present(JString(r.value.url))
    ensures r.Ok? ==> dates.Ok? && r.value.updatedDate == dates.value.1 && r.value.createdDate == dates.value.2
  {
    var head :- Shared.DecodeKeyStateUrl(Serde.Slot(j, "key", 0), Serde.Slot(j, "state", 1), Serde.Slot(j, "url", 2));
    var dates :- dates;
    var details :- DecodeDetails(Serde.Slot(j, "description", 6), Serde.Slot(j, "duration", 7), Serde.Slot(j, "name", 8));
    var extras :- DecodeExtras(Serde.Slot(j, "parent", 9), Serde.Slot(j, "ref", 10), Serde.Slot(j, "testResults", 11));
    Ok(BuildStatus(head.0, head.1, head.2, dates.0, dates.1, dates.2,
                   details.0, details.1, details.2, extras.0, extras.1, extras.2))
  }

  /** buildNumber, updatedDate, createdDate. */
  function DecodeDates(buildNumber: Field, updatedDate: Field, createdDate: Field, missing: Serde.MissingTimestamp)
    : (r: Result<(Option<string>, Option<Numeric.i64>, Option<Numeric.i64>), string>)
    ensures missing == Serde.MissingIsError && (updatedDate == Absent || createdDate == Absent) ==> r.Err?
    ensures missing == Serde.MissingIsNone && r.Ok? && updatedDate == Absent ==> r.value.1.None?
    ensures missing == Serde.MissingIsNone && r.Ok? && createdDate == Absent ==> r.value.2.None?
  {
    var buildNumber :- Serde.Optional(buildNumber, "buildNumber", Serde.AsString);
    var updatedDate :- Serde.EpochSecondsOption(updatedDate, "updatedDate", missing);
    var createdDate :- Serde.EpochSecondsOption(createdDate, "createdDate", missing);
    Ok((buildNumber, updatedDate, createdDate))
  }

  /** description, duration, name. */
  function DecodeDetails(description: Field, duration: Field, name: Field)
    : Result<(Option<string>, Option<Numeric.u64>, Option<string>), string>
  {
    var description :- Serde.Optional(description, "description", Serde.AsString);
    var duration :- Serde.Optional(duration, "duration", Serde.AsU64);
    var name :- Serde.Optional(name, "name", Serde.AsString);
    Ok((description, duration, name))
  }

  /** parent, ref, testResults. */
  function DecodeExtras(parent: Field, reference: Field, testResults: Field)
    : Result<(Option<string>, Option<string>, Option<Shared.TestResults>), string>
  {
    var parent :- Serde.Optional(parent, "parent", Serde.AsString);
    var reference :- Serde.Optional(reference, "ref", Serde.AsString);
    var testResults :- Serde.Optional(testResults, "testResults", Shared.TestResultsFromJson);
    Ok((parent, reference, testResults))
  }

  /** The decoder as the source derives it: a missing date is an error;
      with both date keys there, and in the array form, it reads exactly
      as the corrected one. */
  function FromJsonAsWritten(j: Json): (r: Result<BuildStatus, string>)
    ensures j.JObject? && (Lookup(j.members, "updatedDate") == Absent || Lookup(j.members, "createdDate") == Absent)
      ==> r.Err?
    ensures j.JObject? && Lookup(j.members, "updatedDate") != Absent && Lookup(j.members, "createdDate") != Absent
      ==> r == FromJson(j)
    ensures j.JArray? ==> r == FromJson(j)
  {
    if Serde.StructForm(j, 12) && Serde.Slot(j, "updatedDate", 4) != Absent && Serde.Slot(j, "createdDate", 5) != Absent then
      DecodeDatesAgree(Serde.Slot(j, "buildNumber", 3), Serde.Slot(j, "updatedDate", 4), Serde.Slot(j, "createdDate", 5));
      Decode(j, Serde.MissingIsError)
    else
      Decode(j, Serde.MissingIsError)
  }

  /** The decoder the `Option` type promises: a missing date is None. */
  function FromJson(j: Json): (r: Result<BuildStatus, string>)
    ensures r.Ok? ==> Serde.StructForm(j, 12)
    ensures r.Ok? && j.JObject? && Lookup(j.members, "updatedDate") == Absent ==> r.value.updatedDate.None?
    ensures r.Ok? && j.JObject? && Lookup(j.members, "createdDate") == Absent ==> r.value.createdDate.None?
  {
    Decode(j, Serde.MissingIsNone)
  }

  /** The two readings of the dates differ only on a missing key. */
  lemma DecodeDatesAgree(buildNumber: Field, updatedDate: Field, createdDate: Field)
    requires updatedDate != Absent && createdDate != Absent
    ensures DecodeDates(buildNumber, updatedDate, createdDate, Serde.MissingIsError)
         == DecodeDates(buildNumber, updatedDate, createdDate, Serde.MissingIsNone)
  {
  }

  lemma DatesValues(b: BuildStatus, missing: Serde.MissingTimestamp)
    requires missing == Serde.MissingIsError ==> b.updatedDate.Some? && b.createdDate.Some?
    ensures DecodeDates(FieldOf(Serde.Emit(b.buildNumber, Serde.StringToJson)),
                        FieldOf(Serde.Emit(b.updatedDate, Serde.EpochSecondsToJson)),
                        FieldOf(Serde.Emit(b.createdDate, Serde.EpochSecondsToJson)), missing)
      == Ok((b.buildNumber, b.updatedDate, b.createdDate))
  {
    Serde.OptionalRoundTrip(b.buildNumber, "buildNumber", Serde.StringToJson, Serde.AsString);
    Serde.OptionalRoundTrip(b.updatedDate, "updatedDate", Serde.EpochSecondsToJson, Serde.AsEpochSeconds);
    Serde.OptionalRoundTrip(b.createdDate, "createdDate", Serde.EpochSecondsToJson, Serde.AsEpochSeconds);
  }

  lemma DetailsValues(b: BuildStatus)
    ensures DecodeDetails(FieldOf(Serde.Emit(b.description, Serde.StringToJson)),
                          FieldOf(Serde.Emit(b.duration, Serde.U64ToJson)),
                          FieldOf(Serde.Emit(b.name, Serde.StringToJson)))
      == Ok((b.description, b.duration, b.name))
  {
    Serde.OptionalRoundTrip(b.description, "description", Serde.StringToJson, Serde.AsString);
    Serde.OptionalRoundTrip(b.duration, "duration", Serde.U64ToJson, Serde.AsU64);
    Serde.OptionalRoundTrip(b.name, "name", Serde.StringToJson, Serde.AsString);
  }

  lemma ExtrasValues(b: BuildStatus)
    ensures DecodeExtras(FieldOf(Serde.Emit(b.parent, Serde.StringToJson)),
                         FieldOf(Serde.Emit(b.reference, Serde.StringToJson)),
                         FieldOf(Serde.Emit(b.testResults, Shared.TestResultsToJson)))
      == Ok((b.parent, b.reference, b.testResults))
  {
    Serde.OptionalRoundTrip(b.parent, "parent", Serde.StringToJson, Serde.AsString);
    Serde.OptionalRoundTrip(b.reference, "ref", Serde.StringToJson, Serde.AsString);
    if b.testResults.Some? {
      Shared.TestResultsRoundTrip(b.testResults.value);
    }
  }

  /** Decoding what was serialised gives back the build status; the derived
      reading of a missing date also needs both dates to be there. */
  lemma DecodeToJson(b: BuildStatus, missing: Serde.MissingTimestamp)
    requires missing == Serde.MissingIsError ==> b.updatedDate.Some? && b.createdDate.Some?
    ensures Decode(ToJson(b), missing) == Ok(b)
  {
    Shared.KeyStateUrlRoundTrip(b.key, b.state, b.url);
    DatesValues(b, missing);
    DetailsValues(b);
    ExtrasValues(b);
  }

  /** Decoding what was serialised gives back the build status. */
  lemma RoundTrip(b: BuildStatus)
    ensures FromJson(ToJson(b)) == Ok(b)
  {
    DecodeToJson(b, Serde.MissingIsNone);
  }

  /** The derived decoder round-trips a build status that carries both dates... */
  lemma AsWrittenRoundTripWithDates(b: BuildStatus)
    requires b.updatedDate.Some? && b.createdDate.Some?
    ensures FromJsonAsWritten(ToJson(b)) == Ok(b)
  {
    DecodeToJson(b, Serde.MissingIsError);
  }

  /** ...and rejects every build status it serialised without one of them. */
  lemma AsWrittenRejectsMissingDate(b: BuildStatus)
    requires b.updatedDate.None? || b.createdDate.None?
    ensures FromJsonAsWritten(ToJson(b)).Err?
  {
  }

  /** A build status in the array form serde_json also accepts: every field
      in declaration order, None as `null`. */
  function Positional(b: BuildStatus): seq<Json> {
    [JString(b.key),
     Shared.StateToJson(b.state),
     JString(b.url),
     Serde.OrNull(Serde.Emit(b.buildNumber, Serde.StringToJson)),
     Serde.OrNull(Serde.Emit(b.updatedDate, Serde.EpochSecondsToJson)),
     Serde.OrNull(Serde.Emit(b.createdDate, Serde.EpochSecondsToJson)),
     Serde.OrNull(Serde.Emit(b.description, Serde.StringToJson)),
     Serde.OrNull(Serde.Emit(b.duration, Serde.U64ToJson)),
     Serde.OrNull(Serde.Emit(b.name, Serde.StringToJson)),
     Serde.OrNull(Serde.Emit(b.parent, Serde.StringToJson)),
     Serde.OrNull(Serde.Emit(b.reference, Serde.StringToJson)),
     Serde.OrNull(Serde.Emit(b.testResults, Shared.TestResultsToJson))]
  }

  lemma DatesPositional(b: BuildStatus, missing: Serde.MissingTimestamp)
    ensures DecodeDates(Present(Serde.OrNull(Serde.Emit(b.buildNumber, Serde.StringToJson))),
                        Present(Serde.OrNull(Serde.Emit(b.updatedDate, Serde.EpochSecondsToJson))),
                        Present(Serde.OrNull(Serde.Emit(b.createdDate, Serde.EpochSecondsToJson))), missing)
      == Ok((b.buildNumber, b.updatedDate, b.createdDate))
  {
    Serde.OptionalPositional(b.buildNumber, "buildNumber", Serde.StringToJson, Serde.AsString);
    Serde.OptionalPositional(b.updatedDate, "updatedDate", Serde.EpochSecondsToJson, Serde.AsEpochSeconds);
    Serde.OptionalPositional(b.createdDate, "createdDate", Serde.EpochSecondsToJson, Serde.AsEpochSeconds);
  }

  lemma DetailsPositional(b: BuildStatus)
    ensures DecodeDetails(Present(Serde.OrNull(Serde.Emit(b.description, Serde.StringToJson))),
                          Present(Serde.OrNull(Serde.Emit(b.duration, Serde.U64ToJson))),
                          Present(Serde.OrNull(Serde.Emit(b.name, Serde.StringToJson))))
      == Ok((b.description, b.duration, b.name))
  {
    Serde.OptionalPositional(b.description, "description", Serde.StringToJson, Serde.AsString);
    Serde.OptionalPositional(b.duration, "duration", Serde.U64ToJson, Serde.AsU64);
    Serde.OptionalPositional(b.name, "name", Serde.StringToJson, Serde.AsString);
  }

  lemma ExtrasPositional(b: BuildStatus)
    ensures DecodeExtras(Present(Serde.OrNull(Serde.Emit(b.parent, Serde.StringToJson))),
                         Present(Serde.OrNull(Serde.Emit(b.reference, Serde.StringToJson))),
                         Present(Serde.OrNull(Serde.Emit(b.testResults, Shared.TestResultsToJson))))
      == Ok((b.parent, b.reference, b.testResults))
  {
    Serde.OptionalPositional(b.parent, "parent", Serde.StringToJson, Serde.AsString);
    Serde.OptionalPositional(b.reference, "ref", Serde.StringToJson, Serde.AsString);
    if b.testResults.Some? {
      Shared.TestResultsShape(b.testResults.value);
      Shared.TestResultsRoundTrip(b.testResults.value);
    }
    Serde.OptionalPositional(b.testResults, "testResults", Shared.TestResultsToJson, Shared.TestResultsFromJson);
  }

  lemma FieldsPositional(b: BuildStatus)
    ensures DecodeFields(JArray(Positional(b)), Ok((b.buildNumber, b.updatedDate, b.createdDate))) == Ok(b)
  {
    var j := JArray(Positional(b));
    assert Shared.DecodeKeyStateUrl(Serde.Slot(j, "key", 0), Serde.Slot(j, "state", 1), Serde.Slot(j, "url", 2))
        == Ok((b.key, b.state, b.url)) by {
      Shared.KeyStateUrlRoundTrip(b.key, b.state, b.url);
    }
    assert DecodeDetails(Serde.Slot(j, "description", 6), Serde.Slot(j, "duration", 7), Serde.Slot(j, "name", 8))
        == Ok((b.description, b.duration, b.name)) by {
      DetailsPositional(b);
    }
    assert DecodeExtras(Serde.Slot(j, "parent", 9), Serde.Slot(j, "ref", 10), Serde.Slot(j, "testResults", 11))
        == Ok((b.parent, b.reference, b.testResults)) by {
      ExtrasPositional(b);
    }
  }

  /** Read by position, every build status comes back, and both readings of
      the dates agree, since no element can be missing. */
  lemma PositionalRoundTrip(b: BuildStatus)
    ensures FromJson(JArray(Positional(b))) == Ok(b)
    ensures FromJsonAsWritten(JArray(Positional(b))) == Ok(b)
  {
    DatesPositional(b, Serde.MissingIsNone);
    FieldsPositional(b);
  }


  /** The key order of the `it_can_deserialize` unit test's object, which
      differs from the declaration order: `createdDate` before
      `updatedDate`, `duration` before `description`. */
  const TEST_ORDER: seq<string> :=
    ["key", "state", "url", "buildNumber", "createdDate", "updatedDate", "duration", "description",
     "name", "parent", "ref", "testResults"]

  lemma TestOrderDistinct()
    ensures NoDuplicates(TEST_ORDER)
  {
  }

  /** The fields of `b` as an object with its keys in `TEST_ORDER`. */
  function TestOrderObject(b: BuildStatus): Json {
    Object(TEST_ORDER,
      [Some(JString(b.key)),
       Some(Shared.StateToJson(b.state)),
       Some(JString(b.url)),
       Serde.Emit(b.buildNumber, Serde.StringToJson),
       Serde.Emit(b.createdDate, Serde.EpochSecondsToJson),
       Serde.Emit(b.updatedDate, Serde.EpochSecondsToJson),
       Serde.Emit(b.duration, Serde.U64ToJson),
       Serde.Emit(b.description, Serde.StringToJson),
       Serde.Emit(b.name, Serde.StringToJson),
       Serde.Emit(b.parent, Serde.StringToJson),
       Serde.Emit(b.reference, Serde.StringToJson),
       Serde.Emit(b.testResults, Shared.TestResultsToJson)])
  }

  /** In the object with the test's key order, each field is found under
      its own key. */
  lemma TestOrderLookups(b: BuildStatus)
    ensures TestOrderObject(b).JObject?
    ensures Lookup(TestOrderObject(b).members, "key") == Present(JString(b.key))
    ensures Lookup(TestOrderObject(b).members, "state") == Present(Shared.StateToJson(b.state))
    ensures Lookup(TestOrderObject(b).members, "url") == Present(JString(b.url))
    ensures Lookup(TestOrderObject(b).members, "buildNumber") == FieldOf(Serde.Emit(b.buildNumber, Serde.StringToJson))
    ensures Lookup(TestOrderObject(b).members, "updatedDate") == FieldOf(Serde.Emit(b.updatedDate, Serde.EpochSecondsToJson))
    ensures Lookup(TestOrderObject(b).members, "createdDate") == FieldOf(Serde.Emit(b.createdDate, Serde.EpochSecondsToJson))
    ensures Lookup(TestOrderObject(b).members, "description") == FieldOf(Serde.Emit(b.description, Serde.StringToJson))
    ensures Lookup(TestOrderObject(b).members, "duration") == FieldOf(Serde.Emit(b.duration, Serde.U64ToJson))
    ensures Lookup(TestOrderObject(b).members, "name") == FieldOf(Serde.Emit(b.name, Serde.StringToJson))
    ensures Lookup(TestOrderObject(b).members, "parent") == FieldOf(Serde.Emit(b.parent, Serde.StringToJson))
    ensures Lookup(TestOrderObject(b).members, "ref") == FieldOf(Serde.Emit(b.reference, Serde.StringToJson))
    ensures Lookup(TestOrderObject(b).members, "testResults") == FieldOf(Serde.Emit(b.testResults, Shared.TestResultsToJson))
  {
    var values := [Some(JString(b.key)),
       Some(Shared.StateToJson(b.state)),
       Some(JString(b.url)),
       Serde.Emit(b.buildNumber, Serde.StringToJson),
       Serde.Emit(b.createdDate, Serde.EpochSecondsToJson),
       Serde.Emit(b.updatedDate, Serde.EpochSecondsToJson),
       Serde.Emit(b.duration, Serde.U64ToJson),
       Serde.Emit(b.description, Serde.StringToJson),
       Serde.Emit(b.name, Serde.StringToJson),
       Serde.Emit(b.parent, Serde.StringToJson),
       Serde.Emit(b.reference, Serde.StringToJson),
       Serde.Emit(b.testResults, Shared.TestResultsToJson)];
    TestOrderDistinct();
    ObjectAt(TEST_ORDER, values, 0);
    ObjectAt(TEST_ORDER, values, 1);
    ObjectAt(TEST_ORDER, values, 2);
    ObjectAt(TEST_ORDER, values, 3);
    ObjectAt(TEST_ORDER, values, 4);
    ObjectAt(TEST_ORDER, values, 5);
    ObjectAt(TEST_ORDER, values, 6);
    ObjectAt(TEST_ORDER, values, 7);
    ObjectAt(TEST_ORDER, values, 8);
    ObjectAt(TEST_ORDER, values, 9);
    ObjectAt(TEST_ORDER, values, 10);
    ObjectAt(TEST_ORDER, values, 11);
  }

  /** An object decodes by what its declared keys look up to and nothing
      else: the order of the members and any undeclared key play no part. */
  lemma DecodeByLookups(j1: Json, j2: Json, missing: Serde.MissingTimestamp)
    requires j1.JObject? && j2.JObject?
    requires forall k | k in FIELD_ORDER :: Lookup(j1.members, k) == Lookup(j2.members, k)
    ensures Decode(j1, missing) == Decode(j2, missing)
  {
    var dates := DecodeDates(Lookup(j1.members, "buildNumber"), Lookup(j1.members, "updatedDate"),
                             Lookup(j1.members, "createdDate"), missing);
    assert Decode(j1, missing) == DecodeFields(j1, dates);
    assert Decode(j2, missing) == DecodeFields(j2, dates) by {
      assert "buildNumber" in FIELD_ORDER && "updatedDate" in FIELD_ORDER && "createdDate" in FIELD_ORDER;
    }
    DecodeFieldsByLookups(j1, j2, dates);
  }

  lemma DecodeFieldsByLookups(j1: Json, j2: Json,
                              dates: Result<(Option<string>, Option<Numeric.i64>, Option<Numeric.i64>), string>)
    requires j1.JObject? && j2.JObject?
    requires forall k | k in FIELD_ORDER :: Lookup(j1.members, k) == Lookup(j2.members, k)
    ensures DecodeFields(j1, dates) == DecodeFields(j2, dates)
  {
    assert Shared.DecodeKeyStateUrl(Serde.Slot(j1, "key", 0), Serde.Slot(j1, "state", 1), Serde.Slot(j1, "url", 2)) ==
           Shared.DecodeKeyStateUrl(Serde.Slot(j2, "key", 0), Serde.Slot(j2, "state", 1), Serde.Slot(j2, "url", 2)) by {
      assert "key" in FIELD_ORDER && "state" in FIELD_ORDER && "url" in FIELD_ORDER;
    }
    assert DecodeDetails(Serde.Slot(j1, "description", 6), Serde.Slot(j1, "duration", 7), Serde.Slot(j1, "name", 8)) ==
           DecodeDetails(Serde.Slot(j2, "description", 6), Serde.Slot(j2, "duration", 7), Serde.Slot(j2, "name", 8)) by {
      assert "description" in FIELD_ORDER && "duration" in FIELD_ORDER && "name" in FIELD_ORDER;
    }
    assert DecodeExtras(Serde.Slot(j1, "parent", 9), Serde.Slot(j1, "ref", 10), Serde.Slot(j1, "testResults", 11)) ==
           DecodeExtras(Serde.Slot(j2, "parent", 9), Serde.Slot(j2, "ref", 10), Serde.Slot(j2, "testResults", 11)) by {
      assert "parent" in FIELD_ORDER && "ref" in FIELD_ORDER && "testResults" in FIELD_ORDER;
    }
  }


  /** The object with the test's key order decodes to the status whose
      fields it holds, like the serialised one. */
  lemma TestOrderDecodes(b: BuildStatus, missing: Serde.MissingTimestamp)
    requires missing == Serde.MissingIsError ==> b.updatedDate.Some? && b.createdDate.Some?
    ensures Decode(TestOrderObject(b), missing) == Ok(b)
  {
    TestOrderLookups(b);
    Shared.KeyStateUrlRoundTrip(b.key, b.state, b.url);
    DatesValues(b, missing);
    DetailsValues(b);
    ExtrasValues(b);
  }

  /** The values `it_can_deserialize` expects to read. */
  function FixtureStatus(): BuildStatus {
    BuildStatus("KEY", Shared.Successful, "https://my-build-status.com/path", Some("9"),
      Some(1738198924), Some(1738198923), Some("DESCRIPTION"), Some(12), Some("NAME"), Some("PARENT"),
      Some("REF"), Some(Shared.TestResults(2, 3, 1)))
  }

  /** Both decoders read the test's object as the test expects: camelCase
      keys, `ref` into `reference`, and the epoch seconds of both dates. */
  lemma FixtureDecodes()
    ensures FromJsonAsWritten(TestOrderObject(FixtureStatus())) == Ok(FixtureStatus())
    ensures FromJson(TestOrderObject(FixtureStatus())) == Ok(FixtureStatus())
  {
    TestOrderDecodes(FixtureStatus(), Serde.MissingIsError);
    TestOrderDecodes(FixtureStatus(), Serde.MissingIsNone);
  }

  /** `BuildStatusGet`, the request the builder produces. */
  datatype BuildStatusGet = BuildStatusGet(
    client: Client.Client,
    projectKey: string,
    commitId: string,
    repositorySlug: string,
    key: Option<string>)

  /** The path below the base URL: the REST API's `latest` version, then
      the project, repository and commit, ending in `/builds`. */
  function RequestUri(req: BuildStatusGet): (u: string)
    ensures "api/latest/projects/" + req.projectKey + "/repos/" <= u
    ensures |u| >= 7 && u[|u| - 7..] == "/builds"
  {
    var u := "api/latest/projects/" + req.projectKey + "/repos/" + req.repositorySlug + "/commits/" + req.commitId
      + "/builds";
    assert u[|u| - 7..] == "/builds";
    u
  }

  /** The parameter map `send` assembles: `key` and nothing else, present
      exactly when a key filter was set, holding that key. */
  function QueryParams(key: Option<string>): (m: map<string, string>)
    ensures "key" in m <==> key.Some?
    ensures forall k | k in m :: k == "key"
    ensures key.Some? ==> m["key"] == key.value
  {
    if key.Some? then map["key" := key.value] else map[]
  }

  /** The request `send` issues: a GET of the builds path of the commit,
      with the parameter map always passed (empty when no key is set). */
  function Request(req: BuildStatusGet): (r: Client.HttpRequest)
    reads req.client
    ensures r.verb == Client.GET && r.body == None
    ensures r.url == req.client.basePath + "/" + RequestUri(req)
    ensures r.query == QueryParams(req.key)
    ensures Client.HeaderValue(r.headers, "Authorization") == Some("Bearer " + req.client.apiToken)
  {
    req.client.GetRequest(RequestUri(req), Some(QueryParams(req.key)))
  }

  /** `Output = BuildStatus`: `serde_json::from_str` with the derived
      decoder, which rejects a status missing either date. */
  function OutputDecoder(parse: string -> Result<Json, string>): (f: string -> Result<BuildStatus, string>)
    ensures forall text :: parse(text).Err? ==> f(text).Err?
    ensures forall text :: parse(text).Ok? ==> f(text) == FromJsonAsWritten(parse(text).value)
  {
    Serde.FromText(parse, FromJsonAsWritten)
  }

  /** `ApiRequest::send` for `BuildStatusGet`: the parameter map starts
      empty and receives `key` only when the filter is set. */
  method Send(req: BuildStatusGet, parse: string -> Result<Json, string>) returns (r: Client.ApiResponse<BuildStatus>)
    ensures r == Client.Execute(req.client.httpClient(Request(req)), OutputDecoder(parse))
  {
    var uri := "api/latest/projects/" + req.projectKey + "/repos/" + req.repositorySlug
      + "/commits/" + req.commitId + "/builds";
    var params: map<string, string> := map[];
    if req.key.Some? {
      params := params["key" := req.key.value];
    }
    r := req.client.Get(uri, Some(params), OutputDecoder(parse));
  }

  /** An empty 2xx body is "no build status found"; a body that parses to
      a serialised status with both dates gives that status, and one whose
      object lacks a date is a deserialization error. */
  lemma SendResults(response: Client.Response, parse: string -> Result<Json, string>)
    requires Client.IsSuccess(response.status) && response.body.Text?
    ensures response.body.text == "" <==>
      Client.Execute(Client.Sent(response), OutputDecoder(parse)) == Ok(None)
    ensures forall b: BuildStatus | b.updatedDate.Some? && b.createdDate.Some? &&
        response.body.text != "" && parse(response.body.text) == Ok(ToJson(b)) ::
      Client.Execute(Client.Sent(response), OutputDecoder(parse)) == Ok(Some(b))
    ensures (response.body.text != "" && parse(response.body.text).Ok? && parse(response.body.text).value.JObject? &&
             (Lookup(parse(response.body.text).value.members, "updatedDate") == Absent ||
              Lookup(parse(response.body.text).value.members, "createdDate") == Absent)) ==>
      Client.Execute(Client.Sent(response), OutputDecoder(parse)).Err? &&
      Client.Execute(Client.Sent(response), OutputDecoder(parse)).error.DeserializationError?
    ensures forall b: BuildStatus | (b.updatedDate.None? || b.createdDate.None?) &&
        response.body.text != "" && parse(response.body.text) == Ok(ToJson(b)) ::
      Client.Execute(Client.Sent(response), OutputDecoder(parse)).Err? &&
      Client.Execute(Client.Sent(response), OutputDecoder(parse)).error.DeserializationError?
  {
    forall b: BuildStatus | b.updatedDate.Some? && b.createdDate.Some? &&
        response.body.text != "" && parse(response.body.text) == Ok(ToJson(b))
      ensures Client.Execute(Client.Sent(response), OutputDecoder(parse)) == Ok(Some(b))
    {
      AsWrittenRoundTripWithDates(b);
    }
    forall b: BuildStatus | (b.updatedDate.None? || b.createdDate.None?) &&
        response.body.text != "" && parse(response.body.text) == Ok(ToJson(b))
      ensures Client.Execute(Client.Sent(response), OutputDecoder(parse)).Err? &&
        Client.Execute(Client.Sent(response), OutputDecoder(parse)).error.DeserializationError?
    {
      AsWrittenRejectsMissingDate(b);
    }
  }

  /** `serde_json::from_str` with the corrected decoder, under which a
      missing date reads as None. */
  function CorrectedOutputDecoder(parse: string -> Result<Json, string>): (f: string -> Result<BuildStatus, string>)
    ensures forall text :: parse(text).Err? ==> f(text).Err?
    ensures forall text :: parse(text).Ok? ==> f(text) == FromJson(parse(text).value)
  {
    Serde.FromText(parse, FromJson)
  }

  /** With the corrected decoder the endpoint reads back every serialised
      status, with or without dates. */
  lemma CorrectedSendResults(response: Client.Response, parse: string -> Result<Json, string>)
    requires Client.IsSuccess(response.status) && response.body.Text?
    ensures forall b: BuildStatus | response.body.text != "" && parse(response.body.text) == Ok(ToJson(b)) ::
      Client.Execute(Client.Sent(response), CorrectedOutputDecoder(parse)) == Ok(Some(b))
  {
    forall b: BuildStatus | response.body.text != "" && parse(response.body.text) == Ok(ToJson(b))
      ensures Client.Execute(Client.Sent(response), CorrectedOutputDecoder(parse)) == Ok(Some(b))
    {
      RoundTrip(b);
    }
  }

  /** The error `build` reports: the first required field left unset. */
  datatype BuildStatusGetBuilderError = UninitializedField(field: string)

  /** The derived builder: every field starts unset. `key` is doubly
      optional: unset, or set to a filter (`strip_option` wraps the
      setter's argument in `Some`). */
  class BuildStatusGetBuilder {
    var client: Option<Client.Client>
    var projectKey: Option<string>
    var commitId: Option<string>
    var repositorySlug: Option<string>
    var key: Option<Option<string>>

    /** `BuildStatusGetBuilder::default()`. */
    constructor New()
      ensures client.None? && projectKey.None? && commitId.None? && repositorySlug.None? && key.None?
    {
      client := None;
      projectKey := None;
      commitId := None;
      repositorySlug := None;
      key := None;
    }

    method SetClient(value: Client.Client)
      modifies this
      ensures client == Some(value)
      ensures projectKey == old(projectKey) && commitId == old(commitId)
      ensures repositorySlug == old(repositorySlug) && key == old(key)
    {
      client := Some(value);
    }

    method SetProjectKey(value: string)
      modifies this
      ensures projectKey == Some(value)
      ensures client == old(client) && commitId == old(commitId)
      ensures repositorySlug == old(repositorySlug) && key == old(key)
    {
      projectKey := Some(value);
    }

    method SetCommitId(value: string)
      modifies this
      ensures commitId == Some(value)
      ensures client == old(client) && projectKey == old(projectKey)
      ensures repositorySlug == old(repositorySlug) && key == old(key)
    {
      commitId := Some(value);
    }

    method SetRepositorySlug(value: string)
      modifies this
      ensures repositorySlug == Some(value)
      ensures client == old(client) && projectKey == old(projectKey)
      ensures commitId == old(commitId) && key == old(key)
    {
      repositorySlug := Some(value);
    }

    method SetKey(value: string)
      modifies this
      ensures key == Some(Some(value))
      ensures client == old(client) && projectKey == old(projectKey)
      ensures commitId == old(commitId) && repositorySlug == old(repositorySlug)
    {
      key := Some(Some(value));
    }

    /** The first required field that is still unset, in declaration order. */
    function FirstMissing(): (f: Option<string>)
      reads this
      ensures f.None? <==> client.Some? && projectKey.Some? && commitId.Some? && repositorySlug.Some?
      ensures f.Some? ==> f.value in ["client", "project_key", "commit_id", "repository_slug"]
    {
      if client.None? then Some("client")
      else if projectKey.None? then Some("project_key")
      else if commitId.None? then Some("commit_id")
      else if repositorySlug.None? then Some("repository_slug")
      else None
    }

    /** `build`: fails on the first unset required field; otherwise a
        request with a clone of the client, the set values, and no key
        filter unless one was set. The builder is left as it was. */
    method Build() returns (r: Result<BuildStatusGet, BuildStatusGetBuilderError>)
      ensures r.Err? <==> FirstMissing().Some?
      ensures r.Err? ==> r.error == UninitializedField(FirstMissing().value)
      ensures r.Ok? ==> fresh(r.value.client)
      ensures r.Ok? ==> r.value.client.basePath == client.value.basePath &&
                        r.value.client.apiToken == client.value.apiToken &&
                        r.value.client.httpClient == client.value.httpClient
      ensures r.Ok? ==> r.value.projectKey == projectKey.value && r.value.commitId == commitId.value &&
                        r.value.repositorySlug == repositorySlug.value
      ensures r.Ok? ==> r.value.key == key.GetOr(None)
    {
      if client.None? {
        return Err(UninitializedField("client"));
      }
      if projectKey.None? {
        return Err(UninitializedField("project_key"));
      }
      if commitId.None? {
        return Err(UninitializedField("commit_id"));
      }
      if repositorySlug.None? {
        return Err(UninitializedField("repository_slug"));
      }
      var c := client.value.Clone();
      r := Ok(BuildStatusGet(c, projectKey.value, commitId.value, repositorySlug.value, key.GetOr(None)));
    }
  }

  /** `Api::build_status_get`: a fresh builder with a clone of the client
      and the three path values set, and no key filter. */
  method NewBuildStatusGetBuilder(apiClient: Client.Client, projectKey: string, commitId: string,
                                  repositorySlug: string)
    returns (b: BuildStatusGetBuilder)
    ensures fresh(b) && b.client.Some? && fresh(b.client.value)
    ensures b.client.value.basePath == apiClient.basePath && b.client.value.apiToken == apiClient.apiToken
    ensures b.client.value.httpClient == apiClient.httpClient
    ensures b.projectKey == Some(projectKey) && b.commitId == Some(commitId)
    ensures b.repositorySlug == Some(repositorySlug) && b.key.None?
    ensures b.FirstMissing().None?
  {
    b := new BuildStatusGetBuilder.New();
    var c := apiClient.Clone();
    b.SetClient(c);
    b.SetProjectKey(projectKey);
    b.SetCommitId(commitId);
    b.SetRepositorySlug(repositorySlug);
  }

  /** A builder fresh from `Api::build_status_get`, built with or without
      a key, gives the request `send` turns into the builds path and the
      parameter map of the key. */
  method BuildFromApi(apiClient: Client.Client, projectKey: string, commitId: string,
                      repositorySlug: string, filter: Option<string>)
    returns (req: BuildStatusGet)
    ensures RequestUri(req) ==
      "api/latest/projects/" + projectKey + "/repos/" + repositorySlug + "/commits/" + commitId + "/builds"
    ensures req.key == filter
    ensures QueryParams(req.key) == if filter.Some? then map["key" := filter.value] else map[]
  {
    var b := NewBuildStatusGetBuilder(apiClient, projectKey, commitId, repositorySlug);
    if filter.Some? {
      b.SetKey(filter.value);
    }
    var r := b.Build();
    req := r.value;
  }
}
