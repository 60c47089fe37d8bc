# bitbucket-server-rs in Dafny

A model of the core of `bitbucket-server-rs`, a Rust client for the Bitbucket
Server (Data Center) REST API, with proofs about it. It covers:

- **The client** (`client.dfy`, module `Client`). It builds authenticated requests: the URL
  is `base_path + "/" + uri`, and the bearer credential of section 2.1 of RFC 6750 is added
  together with a JSON content type. The transport is injected. Every received response is
  classified into exactly one outcome: `Ok(None)`, `Ok(Some v)` or one `ApiError` variant.
  The status classes follow section 15 of RFC 9110, with 401 and 403 taken out ahead of
  the generic 4xx branch. `Client` is a class, because `with_http_client` updates it in
  place.
- **Build states and test results** (`build_status.dfy`, module `BuildStatus`). This holds
  the serde wire names, `Default`, the total and case-sensitive `From<String>`, and the
  JSON form of `TestResults`.
- **Four endpoints**:
  - `POST …/commits/{commit}/builds` (`build_status_post.dfy`)
  - `GET …/commits/{commit}/builds` (`build_status_get.dfy`)
  - `GET …/pull-requests/{id}/changes` (`pull_request_changes_get.dfy`)
  - `POST …/pull-requests` (`pull_request_post.dfy`)

  For each endpoint the model gives the payload type and its derived `Serialize` and
  `Deserialize` at the level of JSON values. It also gives the request path, the query map
  (built by conditional inserts in an imperative `Send`) and the body. Where the source has
  a builder, the model has a `derive_builder` class with setters and `Build`, and the `Api`
  constructor that presets the required fields.
- **Shared support**:
  - `json.dfy`: JSON values; objects as ordered member lists; field lookup with duplicate
    detection; the member list serde writes for a struct; `serde_json`'s compact rendering.
  - `serde.dfy`: what serde derive does per field kind (plain, `Option`, `Option` with
    `with = …`, `Vec`).
  - `numeric.dfy`: the Rust integer widths, decimal `to_string`, and `bool` display.
  - `wrappers.dfy`: `Option` and `Result`.

Serialisation and deserialisation are stated on JSON values (`Json.Json`). Every struct
decoder takes both forms `serde_json` hands a derived `Deserialize`: an object, read by key,
and an array with one element per field, read by position (`Serde.StructForm`,
`Serde.Slot`). `serde_json`'s
text parser is a parameter `parse` of every `Send`. The value-level round trip
`FromJson(ToJson(x)) == Ok(x)` is proved for every payload type. For the two build-status
types it holds for a corrected decoder, in which a missing date reads as None. The derived
decoder (`FromJsonAsWritten`) round-trips only values whose dates are all set, and it is
this decoder that `BuildStatusGet.Send` uses (see "## Findings").

## Model

| member | source | states |
|---|---|---|
| Client.BodyOrEmpty | src/client.rs:239-246 | `text().await.unwrap_or_default()`: the body text, or `""` when it cannot be read |
| Client.MakeApiResponse | src/client.rs:270-281 | an empty body gives `Ok(None)` and nothing else does; a body that decodes gives `Ok(Some(v))`; one that does not gives `DeserializationError` with the decoder's message |
| Client.ProcessResponse | src/client.rs:224-256 | `Ok` only for 2xx; 2xx with a readable body is `MakeApiResponse`; `ResponseError` iff 2xx with an unreadable body; `Unauthorized` iff 401 or 403, whatever the body; `HttpClientError(status, body)` iff another 4xx; `HttpServerError(status, body)` iff 5xx; `UnexpectedResponse` iff none of the classes; never `RequestError` |
| Client.IsSuccess | src/client.rs:228 | `is_success`: 200 to 299 (used by `ProcessResponse`'s contract) |
| Client.IsClientError | src/client.rs:239 | `is_client_error`: 400 to 499 (used by `ProcessResponse`'s contract) |
| Client.IsServerError | src/client.rs:243 | `is_server_error`: 500 to 599 (used by `ProcessResponse`'s contract) |
| Client.UnexpectedMessage | src/client.rs:247-254 | the message begins with `Unexpected Response [` |
| Client.Execute | src/client.rs:170-175 | `RequestError` iff the transport failed; otherwise the classification of the response |
| Client.Authorize | src/client.rs:108-111 | appends `Authorization: Bearer <token>` and `Content-Type: application/json` and changes nothing else in the request |
| Client.Client.constructor | src/client.rs:87-93 | `client::new` stores the base path, the token and the transport |
| Client.Client.Clone | src/client.rs:17 | the derived `Clone` makes a new client with the same configuration |
| Client.Client.WithHttpClient | src/client.rs:140-142 | replaces the transport and leaves the base path and the token alone |
| Client.Client.GetRequest | src/client.rs:156-168 | GET to `base_path + "/" + uri` with the query of `params` (empty for None), no body, and both headers |
| Client.Client.PostRequest | src/client.rs:190-202 | POST to `base_path + "/" + uri` with the caller's body unchanged, no query, and both headers |
| Client.Client.Get | src/client.rs:156-176 | the result is the outcome of executing `GetRequest` and classifying the response |
| Client.Client.Post | src/client.rs:190-210 | the result is the outcome of executing `PostRequest` and classifying the response |
| Numeric.DecimalRoundTrip | src/api/pull_request_changes_get.rs:125-130 | the decimal text `to_string` writes for a number reads back as that number |
| Numeric.DecimalInjective | src/api/pull_request_changes_get.rs:125-130 | distinct numbers have distinct decimal texts |
| Serde.AsString | src/api/build_status_post.rs:23-31 | a JSON string is accepted as its text, and nothing else is |
| Serde.AsU32 | src/api/build_status.rs:61-71 | `u32` accepts exactly the JSON integers in [0, 2^32) and keeps their value |
| Serde.AsU64 | src/api/build_status_post.rs:54-55 | `u64` accepts exactly the JSON integers in [0, 2^64) and keeps their value |
| Serde.AsEpochSeconds | src/api/build_status_post.rs:42-43 | a present timestamp is read as whole epoch seconds: accepted iff it is an integer in the `i64` range (wider than chrono's, see "## Left out"), keeping its value |
| Serde.LeafRoundTrips | src/api/build_status_post.rs:23-55 | each leaf reader inverts its writer: a string, a `u32`, a `u64` and an epoch second read back |
| Serde.StringToJson | src/api/build_status_post.rs:23-31 | a `String` is written as a JSON string (stated by `LeafRoundTrips`) |
| Serde.U32ToJson | src/api/build_status.rs:61-71 | a `u32` is written as a JSON number (stated by `LeafRoundTrips`) |
| Serde.U64ToJson | src/api/build_status_post.rs:54-55 | a `u64` is written as a JSON number (stated by `LeafRoundTrips`) |
| Serde.EpochSecondsToJson | src/api/build_status_post.rs:42-43 | `ts_seconds_option` writes a present date as its epoch second (stated by `LeafRoundTrips`) |
| Serde.StructForm | src/client.rs:277-278 | `serde_json::from_str` gives a derived struct decoder an object, or an array with exactly one element per field (used by every struct decoder's contract) |
| Serde.Slot | src/client.rs:277-278 | what the derived decoder reads for a field: `Lookup` of its key in an object, its element by declaration index in an array (used by every struct decoder's contract) |
| Serde.OptionalPositional | src/api/build_status_post.rs:36-37 | an `Option` field read by position reads back, None from `null` |
| Serde.RequiredRoundTrip | src/api/build_status_post.rs:23-31 | a plain field reads back what its encoder wrote |
| Serde.Elements | src/api/pull_request_changes_get.rs:26-27 | the elements decode one by one; a failure means some element fails |
| Serde.ElementsRoundTrip | src/api/pull_request_changes_get.rs:26-27 | elements encoded one by one decode back to the sequence |
| Numeric.NatToDecimal | src/api/pull_request_changes_get.rs:125-130 | `u32::to_string`: decimal digits only, never empty, no leading zero except for 0 |
| Numeric.BoolToString | src/api/pull_request_changes_get.rs:131-132 | `bool::to_string` is `"true"` exactly for true and `"false"` otherwise |
| Json.CompactAt | src/api/build_status_post.rs:17-80 | a key declared once is written once with its field's value, or not at all when that field is None |
| Json.LookupAt | src/api/build_status_get.rs:208-248 | in an object without repeated keys, each member is found under its key whatever the key order |
| Json.ObjectOutsideAll | src/api/build_status_post.rs:17-80 | no key outside the declared wire names is written |
| Json.CompactOrder | src/api/build_status_post.rs:17-80 | the written keys are a subsequence of the declaration order |
| Json.CompactKeys | src/api/build_status_post.rs:17-80 | with every field set, the written keys are exactly the wire names |
| Json.CompactNoNull | src/api/build_status_post.rs:36-78 | a skipped `Option` never shows up as `null` |
| Json.EscapeChar | src/api/build_status_post.rs:119-122 | `serde_json`'s string escape: a plain character stays as it is; one that needs escaping becomes a backslash sequence |
| Json.EscapePlain | src/api/build_status_post.rs:119-122 | a string without quotes, backslashes or control characters is written unchanged |
| Json.Escape | src/api/build_status_post.rs:119-122 | `serde_json`'s escaping of a string, character by character (stated by `EscapeChar` and `EscapePlain`) |
| Json.Quote | src/api/build_status_post.rs:119-122 | a string or key between quotes, escaped (stated by `Render`: a string with nothing to escape is written verbatim) |
| Json.RenderNumber | src/api/build_status_post.rs:119-122 | a non-negative number is written as its decimal text |
| Json.Render | src/api/build_status_post.rs:119-122 | `serde_json::to_string` as compact text: never empty; objects in braces, arrays in brackets, strings in quotes; a string with nothing to escape written verbatim between its quotes |
| Client.HeaderAppend | src/client.rs:108-111 | appending headers leaves every header already present in force |
| BuildStatus.DefaultState | src/api/build_status.rs:12-17 | the default state is the one whose wire name is `UNKNOWN` |
| BuildStatus.WireName | src/api/build_status.rs:15-33 | every state's wire name is one of the five, and `from` maps it back to that state |
| BuildStatus.FromString | src/api/build_status.rs:46-55 | total; each of `SUCCESSFUL`, `FAILED`, `INPROGRESS`, `CANCELLED` gives its state and is the only string that does; every other string gives Unknown |
| BuildStatus.FromStringInverse | src/api/build_status.rs:46-55 | for a wire name, `from` and the serde rename are inverse |
| BuildStatus.WireNameInjective | src/api/build_status.rs:15-33 | the five wire names are pairwise distinct |
| BuildStatus.FromStringExamples | src/api/build_status.rs:77-96 | the unit test's conversions: `InVaLiD` (and lower case) is Unknown |
| BuildStatus.StateToJson | src/api/build_status.rs:12-34 | a state is written as the JSON string of its wire name |
| BuildStatus.StateFromJson | src/api/build_status.rs:12-34 | the derived `Deserialize` accepts exactly the JSON strings that are wire names, and gives the state of that name |
| BuildStatus.StateRoundTrip | src/api/build_status.rs:12-34 | reading a written state gives it back |
| BuildStatus.DecodeKeyStateUrl | src/api/build_status_post.rs:23-31 | the three plain fields decode iff all are present with the right types; their values are what the object holds |
| BuildStatus.KeyStateUrlRoundTrip | src/api/build_status_post.rs:23-31 | the three plain fields read back what was written |
| BuildStatus.TestResultsShape | src/api/build_status.rs:61-71 | `TestResults` writes exactly the keys `failed`, `successful`, `skipped` in that order, each with its count |
| BuildStatus.TestResultsFromJson | src/api/build_status.rs:61-71 | accepts an object or a three-element array, and nothing else; a decoded value's counts are the numbers under `failed`, `successful`, `skipped`, or the array's elements in that order; an array decodes iff it has three elements, each a `u32` |
| BuildStatus.TestResultsMembers | src/api/build_status.rs:61-71 | the written object, member by member |
| BuildStatus.TestResultsRoundTrip | src/api/build_status.rs:61-71 | reading written test results gives them back |
| BuildStatus.TestResultsFromArray | src/api/build_status.rs:61-71 | `[failed, successful, skipped]` reads as those counts |
| BuildStatus.TestResultsFromObject | src/api/build_status.rs:61-71 | an object reads as the counts `(f, s, k)` exactly when `failed`, `successful` and `skipped` each occur once with those values; other keys are ignored |
| BuildStatus.TestResultsToJson | src/api/build_status.rs:61-71 | the derived `Serialize` of `TestResults`: the three counts as numbers under their names, in declaration order (stated by `TestResultsShape` and `TestResultsMembers`) |
| Serde.Required | src/api/build_status_post.rs:23-31 | a plain field decodes iff it occurs once and its value decodes |
| Serde.Optional | src/api/build_status_post.rs:36-37 | an `Option` field missing or `null` is None; a duplicate is an error; otherwise it decodes as its value |
| Serde.OptionalWith | src/api/build_status_post.rs:42-43 | with `with = …` and no default, a missing key is an error and everything else reads like `Optional` |
| Serde.EpochSecondsOption | src/api/build_status_get.rs:42-47 | `ts_seconds_option` read either as derived (missing is an error) or as the `Option` type promises (missing is None) |
| Serde.Emit | src/api/build_status_post.rs:36-37 | `skip_serializing_if = "Option::is_none"`: None writes nothing, `Some(x)` writes `x` |
| Serde.OptionalRoundTrip | src/api/build_status_get.rs:38-39 | an emitted `Option` field reads back as itself |
| Serde.ArrayToJson | src/api/pull_request_post.rs:46-47 | a `Vec` is written as an array of the encoded elements in sequence order |
| Serde.ArrayOf | src/api/pull_request_changes_get.rs:26-27 | a decoded array has one element per item, each the decoding of its item |
| Serde.ArrayRoundTrip | src/api/pull_request_changes_get.rs:26-27 | an array written element by element reads back as the sequence |
| Serde.FromText | src/client.rs:277-278 | `serde_json::from_str`: a parse failure is an error; otherwise it is the decoding of the parsed value |
| Serde.UnitFromJson | src/api/build_status_post.rs:105 | `()` decodes from `null` only |
| Json.Keys | src/api/build_status_post.rs:17-19 | the keys of a member list, index by index |
| Json.Lookup | src/api/build_status_post.rs:17-19 | Absent iff no member has the key |
| Json.ObjectShape | src/api/build_status_post.rs:17-80 | a derived struct writes its keys in declaration order; all keys when every field is set; never `null` for a skipped `Option` |
| Json.ObjectAt | src/api/build_status_post.rs:17-80 | with distinct wire names, each field is found under its own key with the written value (Absent when skipped) |
| Json.ObjectOutside | src/api/build_status_post.rs:17-80 | a key that is no wire name is absent |
| Json.CompactComplete | src/api/build_status_post.rs:17-80 | with every field set, the members are exactly the fields in order |
| Json.CompactPrefix | src/api/build_status_post.rs:242-258 | trailing skipped fields write nothing |
| Json.Compact | src/api/build_status_post.rs:17-80 | the member list serde writes for a struct: never more members than fields (its keys, order and values are stated by `CompactAt`, `CompactOrder`, `CompactKeys`, `CompactNoNull` and `CompactComplete`) |
| Json.Object | src/api/build_status_post.rs:17-80 | a struct is written as the object of those members (stated by `ObjectShape`, `ObjectAt` and `ObjectOutside`) |
| BuildStatusPost.ToJson | src/api/build_status_post.rs:17-80 | the keys are a subsequence of the declaration order; `key`, `state` and `url` are always there; each optional field is present iff it is Some (`reference` under `ref`, `dateAdded` as epoch seconds); no other key is written |
| BuildStatusPost.NeverNull | src/api/build_status_post.rs:36-78 | no member is ever `null` |
| BuildStatusPost.Decode | src/api/build_status_post.rs:17-80 | decodes only an object or an eleven-element array; the plain fields are what the object holds under their keys, or the array's first three elements; as derived, an object without `dateAdded` is an error |
| BuildStatusPost.DecodeByLookups | src/api/build_status_post.rs:17-80 | two objects whose eleven declared keys look up alike decode alike: member order and undeclared keys do not matter |
| BuildStatusPost.DecodeFieldsByLookups | src/api/build_status_post.rs:17-80 | with the same detail fields, two objects whose declared keys look up alike read the remaining fields alike |
| BuildStatusPost.DecodeDetails | src/api/build_status_post.rs:36-55 | a missing `dateAdded` is an error as derived |
| BuildStatusPost.FromJsonAsWritten | src/api/build_status_post.rs:17-80 | the derived `Deserialize` as written: an object without `dateAdded` is rejected; an object with the key, and any array, gives exactly what `FromJson` gives |
| BuildStatusPost.FromJson | src/api/build_status_post.rs:42-43 | the corrected decoder: it accepts only an object or an eleven-element array, and in an object a missing `dateAdded` reads as None |
| BuildStatusPost.DecodeDetailsAgree | src/api/build_status_post.rs:42-43 | the two readings of `dateAdded` differ only when the key is missing |
| BuildStatusPost.DetailsValues | src/api/build_status_post.rs:33-55 | buildNumber, dateAdded, description and duration read back what was written |
| BuildStatusPost.ExtrasValues | src/api/build_status_post.rs:57-78 | name, parent, ref and testResults read back what was written |
| BuildStatusPost.DecodeToJson | src/api/build_status_post.rs:17-80 | decoding the serialised payload gives it back, for the derived reading whenever `dateAdded` is set |
| BuildStatusPost.RoundTrip | src/api/build_status_post.rs:17-80 | `FromJson(ToJson(p)) == Ok(p)` for every payload |
| BuildStatusPost.AsWrittenRoundTripWithDate | src/api/build_status_post.rs:42-43 | the derived decoder round-trips every payload that has a `dateAdded` |
| BuildStatusPost.AsWrittenRejectsMissingDate | src/api/build_status_post.rs:42-43 | the derived decoder rejects every payload serialised without `dateAdded` |
| BuildStatusPost.DetailsPositional | src/api/build_status_post.rs:33-55 | read by position, buildNumber, dateAdded, description and duration come back, None from `null` |
| BuildStatusPost.ExtrasPositional | src/api/build_status_post.rs:57-78 | read by position, name, parent, ref and testResults come back |
| BuildStatusPost.PositionalRoundTrip | src/api/build_status_post.rs:17-80 | the array of a payload's fields in declaration order, None as `null`, reads back as that payload by both decoders, since no element can be missing |
| BuildStatusPost.FullPayloadKeys | src/api/build_status_post.rs:211-238 | with every option set, the keys are exactly key, state, url, buildNumber, dateAdded, description, duration, name, parent, ref, testResults |
| BuildStatusPost.FullMembers | src/api/build_status_post.rs:211-238 | with every option set, the member list field by field |
| BuildStatusPost.BareMembers | src/api/build_status_post.rs:242-258 | with every option None, the object is exactly `{key, state, url}` |
| BuildStatusPost.FullFixtureJson | src/api/build_status_post.rs:211-238 | `it_can_serialize` as JSON values, `dateAdded` being 1738198923 |
| BuildStatusPost.PartialFixtureJson | src/api/build_status_post.rs:242-258 | `it_can_serialize_partially` as JSON values |
| BuildStatusPost.PartialFixtureDecoding | src/api/build_status_post.rs:242-258 | the partial payload's JSON is rejected by the derived decoder and read back by the corrected one |
| BuildStatusPost.DefaultPayloadJson | src/api/build_status_post.rs:17 | the derived `Default` payload serialises to `{"key":"","state":"UNKNOWN","url":""}` |
| BuildStatusPost.DefaultPayload | src/api/build_status_post.rs:17 | the derived `Default`: empty strings, the default state, every option None (stated by `DefaultPayloadJson`) |
| BuildStatusPost.NewBuildStatusPost | src/api/build_status_post.rs:189-203 | stores client and payload unchanged; the path uses the slug and the commit in their places |
| BuildStatusPost.RequestUri | src/api/build_status_post.rs:113-116 | the path starts `api/latest/projects/{p}/repos/` and ends in `/builds` |
| BuildStatusPost.OutputDecoder | src/api/build_status_post.rs:105 | `Output = ()`: a parse failure is an error, and a parsed body is accepted iff it is `null` |
| BuildStatusPost.Request | src/api/build_status_post.rs:112-124 | POST of the rendered payload to `api/latest/projects/{p}/repos/{r}/commits/{c}/builds`, with the bearer header |
| BuildStatusPost.Send | src/api/build_status_post.rs:112-124 | the result is the outcome of that request, decoded as `()` |
| BuildStatusPost.SendResults | src/api/build_status_post.rs:103-105 | an empty 2xx body gives `Ok(None)`; `null` gives `Ok(Some(()))`; any other parsed body is a deserialization error |
| BuildStatusPost.IntegrationTestArgumentOrder | tests/api_build_status_post.rs:41-44 | the argument order that test uses leads to a path other than the one its mock expects |
| BuildStatusGet.ToJson | src/api/build_status_get.rs:19-84 | the same shape rules for the twelve `BuildStatus` fields, both dates as epoch seconds |
| BuildStatusGet.NeverNull | src/api/build_status_get.rs:38-83 | no member is ever `null` |
| BuildStatusGet.FullKeys | src/api/build_status_get.rs:19-84 | with every option set, all twelve keys in declaration order |
| BuildStatusGet.Decode | src/api/build_status_get.rs:19-84 | decodes only an object or a twelve-element array; the plain fields are what the object holds under their keys, or the array's first three elements; as derived, an object without `updatedDate` or `createdDate` is an error |
| BuildStatusGet.DecodeByLookups | src/api/build_status_get.rs:19-84 | two objects whose twelve declared keys look up alike decode alike: member order and undeclared keys do not matter |
| BuildStatusGet.DecodeFieldsByLookups | src/api/build_status_get.rs:19-84 | with the same buildNumber and dates, two objects whose declared keys look up alike read the remaining fields alike |
| BuildStatusGet.DecodeDates | src/api/build_status_get.rs:38-47 | as derived, a missing date is an error |
| BuildStatusGet.FromJsonAsWritten | src/api/build_status_get.rs:19-84 | the derived `Deserialize` as written: an object without `updatedDate` or without `createdDate` is rejected; an object with both keys, and any array, gives exactly what `FromJson` gives |
| BuildStatusGet.FromJson | src/api/build_status_get.rs:42-47 | the corrected decoder: it accepts only an object or a twelve-element array, and in an object a missing date reads as None |
| BuildStatusGet.DecodeDatesAgree | src/api/build_status_get.rs:42-47 | the two readings of the dates differ only when a key is missing |
| BuildStatusGet.DatesValues | src/api/build_status_get.rs:38-47 | the build number and both dates read back what was written |
| BuildStatusGet.DetailsValues | src/api/build_status_get.rs:52-65 | description, duration and name read back what was written |
| BuildStatusGet.ExtrasValues | src/api/build_status_get.rs:70-83 | parent, ref and testResults read back what was written |
| BuildStatusGet.DecodeToJson | src/api/build_status_get.rs:19-84 | decoding the serialised status gives it back, for the derived reading whenever both dates are set |
| BuildStatusGet.RoundTrip | src/api/build_status_get.rs:19-84 | `FromJson(ToJson(b)) == Ok(b)` for every build status |
| BuildStatusGet.AsWrittenRoundTripWithDates | src/api/build_status_get.rs:42-47 | the derived decoder round-trips every status with both dates |
| BuildStatusGet.AsWrittenRejectsMissingDate | src/api/build_status_get.rs:42-47 | the derived decoder rejects every status serialised without one of the dates |
| BuildStatusGet.DatesPositional | src/api/build_status_get.rs:38-47 | read by position, the build number and both dates come back, None from `null`, in either reading |
| BuildStatusGet.DetailsPositional | src/api/build_status_get.rs:52-65 | read by position, description, duration and name come back |
| BuildStatusGet.ExtrasPositional | src/api/build_status_get.rs:70-83 | read by position, parent, ref and testResults come back |
| BuildStatusGet.FieldsPositional | src/api/build_status_get.rs:19-84 | the array of a status's fields gives that status once the first three optional fields are read |
| BuildStatusGet.PositionalRoundTrip | src/api/build_status_get.rs:19-84 | the array of a status's fields in declaration order, None as `null`, reads back as that status by both decoders, since no element can be missing |
| BuildStatusGet.TestOrderLookups | src/api/build_status_get.rs:209-226 | in an object with the test's key order, each field is found under its own key |
| BuildStatusGet.TestOrderDecodes | src/api/build_status_get.rs:209-226 | the object in the test's key order, which differs from the declaration order, decodes to the status whose fields it holds, under the corrected reading for every status and under the derived one when both dates are set |
| BuildStatusGet.FixtureDecodes | src/api/build_status_get.rs:208-248 | `it_can_deserialize`: camelCase keys, `ref` into `reference`, `createdDate` 1738198923 and `updatedDate` 1738198924, the nested test results |
| BuildStatusGet.RequestUri | src/api/build_status_get.rs:117-120 | the path starts `api/latest/projects/{p}/repos/` and ends in `/builds` |
| BuildStatusGet.QueryParams | src/api/build_status_get.rs:122-129 | the map holds `key` and nothing else, iff a key filter is set, with that key |
| BuildStatusGet.Request | src/api/build_status_get.rs:115-131 | GET of `api/latest/projects/{p}/repos/{r}/commits/{c}/builds` with that map, always passed as `Some` |
| BuildStatusGet.OutputDecoder | src/api/build_status_get.rs:109 | `Output = BuildStatus` read by `serde_json::from_str`: a parse failure is an error; otherwise the derived decoder `FromJsonAsWritten` |
| BuildStatusGet.Send | src/api/build_status_get.rs:115-131 | the map built by the conditional insert is that map; the result is the outcome of the request, decoded by the derived decoder |
| BuildStatusGet.SendResults | src/api/build_status_get.rs:109-131 | an empty 2xx body is `Ok(None)` ("no build status found") and only it is; a serialised status with both dates reads back; a body whose object lacks a date, such as a serialised status with a date None, gives `DeserializationError` |
| BuildStatusGet.CorrectedOutputDecoder | src/api/build_status_get.rs:42-47 | `serde_json::from_str` with the corrected decoder `FromJson` |
| BuildStatusGet.CorrectedSendResults | src/api/build_status_get.rs:42-47 | with the corrected decoder, every serialised status reads back, with or without dates |
| BuildStatusGet.BuildStatusGetBuilder.constructor | src/api/build_status_get.rs:88 | the derived default builder has nothing set |
| BuildStatusGet.BuildStatusGetBuilder.SetClient | src/api/build_status_get.rs:90-91 | sets the client, nothing else |
| BuildStatusGet.BuildStatusGetBuilder.SetProjectKey | src/api/build_status_get.rs:93-94 | sets the project key, nothing else |
| BuildStatusGet.BuildStatusGetBuilder.SetCommitId | src/api/build_status_get.rs:96-97 | sets the commit id, nothing else |
| BuildStatusGet.BuildStatusGetBuilder.SetRepositorySlug | src/api/build_status_get.rs:99-100 | sets the slug, nothing else |
| BuildStatusGet.BuildStatusGetBuilder.SetKey | src/api/build_status_get.rs:102-105 | `strip_option`: `key(k)` sets the filter to `Some(k)` |
| BuildStatusGet.BuildStatusGetBuilder.FirstMissing | src/api/build_status_get.rs:89-101 | None iff all four required fields are set |
| BuildStatusGet.BuildStatusGetBuilder.Build | src/api/build_status_get.rs:88-106 | fails iff a required field is unset, naming the first one; otherwise a request with a clone of the client, the set values, and `key` None unless set |
| BuildStatusGet.NewBuildStatusGetBuilder | src/api/build_status_get.rs:186-199 | a fresh builder with a clone of the client and the three path values, `key` unset, no required field missing |
| BuildStatusGet.BuildFromApi | src/api/build_status_get.rs:158-170 | the documented flow (`build_status_get`, optional `.key`, `build`) gives the builds path and the map of the key |
| PullRequestChangesGet.PathToJson | src/api/pull_request_changes_get.rs:48-54 | a path is written as an object with the single key `toString` |
| PullRequestChangesGet.ChangeItemToJson | src/api/pull_request_changes_get.rs:33-46 | an item writes exactly `contentId`, `type`, `path`, in that order |
| PullRequestChangesGet.ItemsToJson | src/api/pull_request_changes_get.rs:26-27 | the items are written as an array, one element per item, in order |
| PullRequestChangesGet.ToJson | src/api/pull_request_changes_get.rs:16-28 | the derived `Serialize`: the keys keep the order `fromHash`, `toHash`, `values`, and no other key is written |
| PullRequestChangesGet.PathFromJson | src/api/pull_request_changes_get.rs:48-54 | accepts an object or a one-element array; a decoded `Path` is the string under `toString` or the array's element; an array decodes iff it is one string |
| PullRequestChangesGet.ChangeItemFromJson | src/api/pull_request_changes_get.rs:30-46 | accepts an object or a three-element array; the fields come from `contentId`, `type` and `path`, or from the elements in that order; an array decodes iff it has three elements, two strings and a path |
| PullRequestChangesGet.ItemsFromJson | src/api/pull_request_changes_get.rs:26-27 | a decoded list has one item per array element, in order |
| PullRequestChangesGet.FromJson | src/api/pull_request_changes_get.rs:16-28 | accepts an object or a three-element array; the hashes come from `fromHash` and `toHash` or the first two elements; a missing `values` is None; an array decodes iff it holds two strings and `null` or an item list, and its `values` is None iff the third element is `null` |
| PullRequestChangesGet.PathRoundTrip | src/api/pull_request_changes_get.rs:48-54 | a path reads back as itself |
| PullRequestChangesGet.ChangeItemLookups | src/api/pull_request_changes_get.rs:33-46 | an item writes its fields under `contentId`, `type` and `path` |
| PullRequestChangesGet.ChangeItemRoundTrip | src/api/pull_request_changes_get.rs:33-46 | an item reads back as itself |
| PullRequestChangesGet.ItemsRoundTrip | src/api/pull_request_changes_get.rs:26-27 | the item list reads back in the same order |
| PullRequestChangesGet.ToJsonKeys | src/api/pull_request_changes_get.rs:16-28 | the keys are `fromHash`, `toHash`, and `values` when there are items; with no items, exactly the two hashes |
| PullRequestChangesGet.RoundTrip | src/api/pull_request_changes_get.rs:12-54 | `FromJson(ToJson(x)) == Ok(x)` for every page of changes |
| PullRequestChangesGet.PositionalRoundTrip | src/api/pull_request_changes_get.rs:16-28 | a page given as the array of its fields reads back, so `["a","b",null]` is the page with those hashes and no items |
| PullRequestChangesGet.NestedPositional | src/api/pull_request_changes_get.rs:30-54 | a path and a change item read back from the arrays of their fields |
| PullRequestChangesGet.ChangeItemMembers | src/api/pull_request_changes_get.rs:33-54 | an item's object, member by member |
| PullRequestChangesGet.MockSerializes | src/api/pull_request_changes_get.rs:205-238 | `it_can_serialize`: the mock struct gives the mock JSON |
| PullRequestChangesGet.MockDeserializes | src/api/pull_request_changes_get.rs:197-203 | `it_can_deserialize`: the mock JSON gives the mock struct |
| PullRequestChangesGet.RequestUri | src/api/pull_request_changes_get.rs:109-112 | the path starts `api/latest/projects/{p}/repos/` and ends in `/changes` |
| PullRequestChangesGet.QueryParams | src/api/pull_request_changes_get.rs:114-133 | the parameter map holds only the six parameter names |
| PullRequestChangesGet.QueryParamsKeys | src/api/pull_request_changes_get.rs:114-133 | every key is one of the six names, and each name is present iff its field is set |
| PullRequestChangesGet.QueryParamsValues | src/api/pull_request_changes_get.rs:116-133 | strings are sent unchanged, `start` and `limit` as decimal text of the number, `withComments` as `true` or `false` |
| PullRequestChangesGet.QueryParamsInjective | src/api/pull_request_changes_get.rs:114-133 | two requests that send the same query agree on all six optional parameters |
| PullRequestChangesGet.Request | src/api/pull_request_changes_get.rs:108-135 | GET of `api/latest/projects/{p}/repos/{r}/pull-requests/{id}/changes` with the parameter map |
| PullRequestChangesGet.OutputDecoder | src/api/pull_request_changes_get.rs:101 | `Output = PullRequestChanges` read by `serde_json::from_str`: a parse failure is an error; otherwise the derived decoder |
| PullRequestChangesGet.Send | src/api/pull_request_changes_get.rs:108-136 | the map built by six conditional inserts is the parameter map; the result is the outcome of the request |
| PullRequestChangesGet.SendResults | src/api/pull_request_changes_get.rs:101 | an empty 2xx body is `Ok(None)` and only it is; a serialised page reads back |
| PullRequestChangesGet.PullRequestChangesGetBuilder.constructor | src/api/pull_request_changes_get.rs:59 | the derived default builder has nothing set |
| PullRequestChangesGet.PullRequestChangesGetBuilder.SetClient | src/api/pull_request_changes_get.rs:61-62 | sets the client, nothing else |
| PullRequestChangesGet.PullRequestChangesGetBuilder.SetProjectKey | src/api/pull_request_changes_get.rs:64-65 | sets the project key, nothing else |
| PullRequestChangesGet.PullRequestChangesGetBuilder.SetPullRequestId | src/api/pull_request_changes_get.rs:67-68 | sets the pull request id, nothing else |
| PullRequestChangesGet.PullRequestChangesGetBuilder.SetRepositorySlug | src/api/pull_request_changes_get.rs:70-71 | sets the slug, nothing else |
| PullRequestChangesGet.PullRequestChangesGetBuilder.SetSinceId | src/api/pull_request_changes_get.rs:73-75 | `since_id(s)` sets `Some(s)`, nothing else |
| PullRequestChangesGet.PullRequestChangesGetBuilder.SetChangeScope | src/api/pull_request_changes_get.rs:77-81 | `change_scope(s)` sets `Some(s)`, nothing else |
| PullRequestChangesGet.PullRequestChangesGetBuilder.SetUntilId | src/api/pull_request_changes_get.rs:83-85 | `until_id(s)` sets `Some(s)`, nothing else |
| PullRequestChangesGet.PullRequestChangesGetBuilder.SetStart | src/api/pull_request_changes_get.rs:87-89 | `start(n)` sets `Some(n)`, nothing else |
| PullRequestChangesGet.PullRequestChangesGetBuilder.SetLimit | src/api/pull_request_changes_get.rs:91-93 | `limit(n)` sets `Some(n)`, nothing else |
| PullRequestChangesGet.PullRequestChangesGetBuilder.SetWithComments | src/api/pull_request_changes_get.rs:95-97 | `with_comments(b)` sets `Some(b)`, nothing else |
| PullRequestChangesGet.PullRequestChangesGetBuilder.FirstMissing | src/api/pull_request_changes_get.rs:60-71 | None iff all four required fields are set |
| PullRequestChangesGet.PullRequestChangesGetBuilder.Build | src/api/pull_request_changes_get.rs:59-98 | fails iff a required field is unset, naming the first one; otherwise a request with a clone of the client and every optional field None unless set |
| PullRequestChangesGet.NewPullRequestChangesGetBuilder | src/api/pull_request_changes_get.rs:177-190 | a fresh builder with a clone of the client and the three path values, every optional field unset, nothing required missing |
| PullRequestChangesGet.BuildWithAllParams | tests/api_pull_request_changes_get.rs:64-77 | with all six parameters set to the test's values, the map is exactly the six pairs, with `start` "1", `limit` "10" and `withComments` "true" |
| PullRequestPost.ToJson | src/api/pull_request_post.rs:29-48 | the derived `Serialize` of the payload (its keys and values are stated by `PayloadKeys`, `PayloadLookups`, `FullMembers` and `BareMembers`) |
| PullRequestPost.UserToJson | src/api/pull_request_post.rs:19-23 | the derived `Serialize` of `User`: `{"name": …}` (stated by `ReviewerMembers` and `UserRoundTrip`) |
| PullRequestPost.ReviewerToJson | src/api/pull_request_post.rs:12-16 | `{"user": {"name": …}}` (stated by `ReviewerMembers` and `ReviewerRoundTrip`) |
| PullRequestPost.ProjectToJson | src/api/pull_request_post.rs:73-78 | `{"key": …}` (stated by `RefMembers` and `ProjectRoundTrip`) |
| PullRequestPost.RepositoryToJson | src/api/pull_request_post.rs:62-70 | `{"slug": …, "project": …}` in that order (stated by `RefMembers` and `RepositoryRoundTrip`) |
| PullRequestPost.RefToJson | src/api/pull_request_post.rs:51-59 | `{"id": …, "repository": …}` in that order (stated by `RefMembers` and `RefRoundTrip`) |
| PullRequestPost.ReviewersToJson | src/api/pull_request_post.rs:46-47 | the reviewer list as an array in list order (stated by `ReviewersInOrder` and `ReviewersRoundTrip`) |
| PullRequestPost.UserFromJson | src/api/pull_request_post.rs:19-23 | accepts an object or a one-element array; a decoded user's name is the string under `name` or the element; an array decodes iff it is one string |
| PullRequestPost.ReviewerFromJson | src/api/pull_request_post.rs:12-16 | accepts an object or a one-element array; the user is the decoding of `user` or of the element |
| PullRequestPost.ProjectFromJson | src/api/pull_request_post.rs:73-78 | accepts an object or a one-element array; the key is the string under `key` or the element |
| PullRequestPost.RepositoryFromJson | src/api/pull_request_post.rs:62-70 | accepts an object or a two-element array; slug and project come from `slug` and `project` or the elements in that order |
| PullRequestPost.RefFromJson | src/api/pull_request_post.rs:51-59 | accepts an object or a two-element array; id and repository come from `id` and `repository` or the elements in that order |
| PullRequestPost.ReviewersFromJson | src/api/pull_request_post.rs:46-47 | one reviewer per array element, in order |
| PullRequestPost.FromJson | src/api/pull_request_post.rs:29-48 | accepts an object or a five-element array; title and both refs come from `title`, `fromRef` and `toRef` or elements 0, 2 and 3; a missing description or reviewer list is None; an array decodes iff each element decodes as its field, `null` allowed for the two options |
| PullRequestPost.UserRoundTrip | src/api/pull_request_post.rs:19-23 | a user reads back as itself |
| PullRequestPost.ReviewerRoundTrip | src/api/pull_request_post.rs:12-16 | a reviewer reads back as itself |
| PullRequestPost.ReviewersRoundTrip | src/api/pull_request_post.rs:46-47 | the reviewer list reads back in the same order |
| PullRequestPost.ProjectRoundTrip | src/api/pull_request_post.rs:73-78 | a project reads back as itself |
| PullRequestPost.RepositoryRoundTrip | src/api/pull_request_post.rs:62-70 | a repository reads back as itself |
| PullRequestPost.RefRoundTrip | src/api/pull_request_post.rs:51-59 | a branch reference reads back as itself |
| PullRequestPost.PayloadLookups | src/api/pull_request_post.rs:29-48 | each field is under its camelCase key (`fromRef`, `toRef`); description and reviewers are absent iff None |
| PullRequestPost.RoundTrip | src/api/pull_request_post.rs:29-78 | `FromJson(ToJson(p)) == Ok(p)` for every payload |
| PullRequestPost.PositionalRoundTrip | src/api/pull_request_post.rs:29-48 | a payload given as the array of its fields, None as `null`, reads back |
| PullRequestPost.LeafPositional | src/api/pull_request_post.rs:12-23 | `["n"]` is the user "n"; a reviewer, a user and a project read back from arrays |
| PullRequestPost.RepositoryPositional | src/api/pull_request_post.rs:62-70 | a repository reads back from the array of its fields |
| PullRequestPost.RefPositional | src/api/pull_request_post.rs:51-59 | a branch reference reads back from the array of its fields |
| PullRequestPost.PayloadKeys | src/api/pull_request_post.rs:29-48 | the keys are title, description if set, fromRef, toRef, reviewers if set, in that order |
| PullRequestPost.ReviewersInOrder | src/api/pull_request_post.rs:46-47 | the reviewers array holds the reviewers in the list's order |
| PullRequestPost.RefMembers | src/api/pull_request_post.rs:51-78 | a ref's object nests `{id, repository{slug, project{key}}}` |
| PullRequestPost.ReviewerMembers | src/api/pull_request_post.rs:12-23 | a reviewer's object is `{user{name}}` |
| PullRequestPost.FullMembers | src/api/pull_request_post.rs:216-250 | with both options set, exactly the five members in order |
| PullRequestPost.BareMembers | src/api/pull_request_post.rs:253-283 | with both options None, exactly title, fromRef, toRef |
| PullRequestPost.FullFixtureJson | src/api/pull_request_post.rs:216-250 | `it_can_serialize` as JSON values |
| PullRequestPost.PartialFixtureJson | src/api/pull_request_post.rs:253-283 | `it_can_serialize_partially` as JSON values |
| PullRequestPost.NewPullRequestPost | src/api/pull_request_post.rs:196-208 | stores client and payload unchanged; the path uses the project and the slug |
| PullRequestPost.RequestUri | src/api/pull_request_post.rs:107-110 | the path starts `api/latest/projects/{p}/repos/` and ends in `/pull-requests` |
| PullRequestPost.OutputDecoder | src/api/pull_request_post.rs:99 | `Output = PullRequestPostPayload` read by `serde_json::from_str`: a parse failure is an error; otherwise the derived decoder |
| PullRequestPost.Request | src/api/pull_request_post.rs:106-118 | POST of the rendered payload to `api/latest/projects/{p}/repos/{r}/pull-requests`, with the bearer header |
| PullRequestPost.Send | src/api/pull_request_post.rs:106-118 | the result is the outcome of that request, decoded as the payload type |
| PullRequestPost.SendResults | src/api/pull_request_post.rs:98-99 | a 2xx (such as 201) whose body is a serialised payload gives `Ok(Some(that payload))`; an empty body gives `Ok(None)` and only it does |

## Left out

- Transport, async and `Send` bounds: `reqwest` execution is the `httpClient` function
  field of `Client.Client` (deterministic); executing a request yields a response or a
  failure.
- The reason phrase of `StatusCode`'s `Display` in the `UnexpectedResponse` message is a
  field of the response; only the message's prefix is stated.
- `.build().expect(...)`: request construction is taken to succeed.
- `serde_json` text parsing: the parser is the `parse` parameter of each `Send`.
- Json.Render: only its shape is proved (never empty; braces, brackets and quotes; a
  string with nothing to escape written verbatim). No parser is modelled, so there is no
  text round trip, and the fixtures are stated as JSON values, not as text.
- `serde_json::to_string(...).unwrap()` is taken to succeed.
- `chrono`: a `DateTime<Utc>` is its epoch second (`i64`). RFC 3339 parsing and time zones
  are not modelled. JSON numbers are integers.
- Serde.AsEpochSeconds: accepts every `i64`. chrono's `ts_seconds_option` reader goes through
  `DateTime::from_timestamp`, which rejects seconds outside `DateTime<Utc>`'s range (about
  262 000 years either side of the epoch); that error path is not modelled. Sub-second
  parts are taken to be zero: `ts_seconds_option` writes only `timestamp()`, so the round
  trips `BuildStatusPost.RoundTrip` and `BuildStatusGet.RoundTrip` hold because a date is
  modelled as a whole second.
- `debug!` logging.
- `Client::api` and the `Api` wrapper of src/api/mod.rs: each `Api` constructor takes the
  client directly. For the builder endpoints, moving `self.client` and then cloning it is
  modelled as `Clone()`.
- `derive_builder` returns a `ValidationError` variant that no builder here can produce;
  only `UninitializedField` is modelled.
- BuildStatus.StateFromJson: reads a state from its JSON string only. `serde_json` also
  accepts a unit variant in the externally tagged map form, such as `{"SUCCESSFUL": null}`;
  that form is not modelled and reads as an error.
- The derived `Default` of the pull-request payload structs (src/api/pull_request_post.rs:29,
  51, 62, 73) is not modelled: no request in the library builds one from it.
- `BuildStatusState`'s derived `Deserialize` rejects strings that are not wire names
  (`BuildStatus.StateFromJson`). Only `From<String>` falls back to Unknown, so JSON
  decoding does not degrade to Unknown.
- tests/api_build_status_post.rs:41-44 passes the commit id where the signature at
  src/api/build_status_post.rs:189-195 takes the repository slug. The model follows the
  signature; `BuildStatusPost.IntegrationTestArgumentOrder` shows the mismatch.
- src/error.rs, src/api/pull_request_changes.rs, src/lib.rs and src/api/mod.rs are not
  part of this model. They are not compiled in, or hold only documentation and a
  one-field wrapper.

## Findings

| source | as written | input that shows it | evidently intended | confidence | as-written member | corrected member |
|---|---|---|---|---|---|---|
| src/api/build_status_post.rs:42-43 | `date_added: Option<DateTime<Utc>>` carries `with = "ts_seconds_option"` and no `#[serde(default)]`, so the derived `Deserialize` reports `missing field` when the key is absent | the payload of `it_can_serialize_partially`: it serialises to `{"key","state","url"}`, which the payload type then fails to read back | a missing `dateAdded` reads as None, as for every other `Option` field and as serialisation writes it | high, not executed | BuildStatusPost.FromJsonAsWritten (BuildStatusPost.AsWrittenRejectsMissingDate, BuildStatusPost.PartialFixtureDecoding) | BuildStatusPost.FromJson (BuildStatusPost.RoundTrip) |
| src/api/build_status_get.rs:42-47 | `updated_date` and `created_date` have the same attributes, so a build status without either date is rejected | a `BuildStatus` with `updatedDate` None: `ToJson` leaves the key out and the derived decoder then fails | a missing date reads as None | high, not executed | BuildStatusGet.FromJsonAsWritten (BuildStatusGet.AsWrittenRejectsMissingDate, and BuildStatusGet.SendResults through BuildStatusGet.Send) | BuildStatusGet.FromJson (BuildStatusGet.RoundTrip, BuildStatusGet.CorrectedSendResults) |
