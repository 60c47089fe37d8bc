/** The pull-request changes endpoint: the page of changed paths, its JSON
    form, the six optional query parameters and the request builder. */
module PullRequestChangesGet {
  import opened Wrappers
  import opened Json
  import Numeric
  import Serde
  import Client

  /** `Path`: the changed file's path, written under `toString`. */
  datatype Path = Path(toString: string)

  /** `ChangeItem`: `contentId`, `type` and `path`, all required. */
  datatype ChangeItem = ChangeItem(contentId: string, changeType: string, path: Path)

  /** `PullRequestChanges`: the two commit hashes and, when present, the
      changed items under `values`. */
  datatype PullRequestChanges = PullRequestChanges(fromHash: string, toHash: string, values: Option<seq<ChangeItem>>)

  const PATH_KEYS: seq<string> := ["toString"]
  const CHANGE_ITEM_KEYS: seq<string> := ["contentId", "type", "path"]
  const CHANGES_KEYS: seq<string> := ["fromHash", "toHash", "values"]

  lemma ChangeItemKeysDistinct()
    ensures NoDuplicates(CHANGE_ITEM_KEYS)
  {
  }

  lemma ChangesKeysDistinct()
    ensures NoDuplicates(CHANGES_KEYS)
  {
  }

  /** A path is an object with the single key `toString`. */
  function PathToJson(p: Path): (j: Json)
    ensures j.JObject? && Keys(j.members) == PATH_KEYS
  {
    var values := [Some(JString(p.toString))];
    CompactKeys(PATH_KEYS, values);
    Object(PATH_KEYS, values)
  }

  /** An item writes all three keys, `changeType` under `type`. */
  function ChangeItemToJson(c: ChangeItem): (j: Json)
    ensures j.JObject? && Keys(j.members) == CHANGE_ITEM_KEYS
  {
    var values := [Some(JString(c.contentId)), Some(JString(c.changeType)), Some(PathToJson(c.path))];
    CompactKeys(CHANGE_ITEM_KEYS, values);
    Object(CHANGE_ITEM_KEYS, values)
  }

  /** A `Vec<ChangeItem>`: an array of the items in sequence order. */
  function ItemsToJson(items: seq<ChangeItem>): (j: Json)
    ensures j.JArray? && |j.items| == |items|
    ensures forall i | 0 <= i < |items| :: j.items[i] == ChangeItemToJson(items[i])
  {
    Serde.ArrayToJson(items, ChangeItemToJson)
  }

  /** The derived `Serialize`: `fromHash`, `toHash`, then `values` unless
      it is None; no other key. */
  function ToJson(x: PullRequestChanges): (j: Json)
    ensures j.JObject? && IsSubsequence(Keys(j.members), CHANGES_KEYS)
    ensures forall k | k !in CHANGES_KEYS :: Lookup(j.members, k) == Absent
  {
    var values := [Some(JString(x.fromHash)), Some(JString(x.toHash)), Serde.Emit(x.values, ItemsToJson)];
    CompactOrder(CHANGES_KEYS, values);
    ObjectOutsideAll(CHANGES_KEYS, values);
    Object(CHANGES_KEYS, values)
  }

  function PathFromJson(j: Json): (r: Result<Path, string>)
    ensures r.Ok? ==> Serde.StructForm(j, 1) && Serde.Slot(j, "toString", 0) == Present(JString(r.value.toString))
    ensures j.JArray? ==> (r.Ok? <==> |j.items| == 1 && j.items[0].JString?)
  {
    if !Serde.StructForm(j, 1) then Err("invalid type or length: expected struct Path with 1 element")
    else
      var s :- Serde.Required(Serde.Slot(j, "toString", 0), "toString", Serde.AsString);
      Ok(Path(s))
  }

  function ChangeItemFromJson(j: Json): (r: Result<ChangeItem, string>)
    ensures r.Ok? ==> Serde.StructForm(j, 3)
    ensures r.Ok? ==> Serde.Slot(j, "contentId", 0) == Present(JString(r.value.contentId))
    ensures r.Ok? ==> Serde.Slot(j, "type", 1) == Present(JString(r.value.changeType))
    ensures r.Ok? ==> Serde.Slot(j, "path", 2).Present? &&
                      PathFromJson(Serde.Slot(j, "path", 2).value) == Ok(r.value.path)
    ensures j.JArray? ==> (r.Ok? <==> (|j.items| == 3 && j.items[0].JString? && j.items[1].JString? &&
                                      PathFromJson(j.items[2]).Ok?))
  {
    if !Serde.StructForm(j, 3) then Err("invalid type or length: expected struct ChangeItem with 3 elements")
    else
      var contentId :- Serde.Required(Serde.Slot(j, "contentId", 0), "contentId", Serde.AsString);
      var changeType :- Serde.Required(Serde.Slot(j, "type", 1), "type", Serde.AsString);
      var path :- Serde.Required(Serde.Slot(j, "path", 2), "path", PathFromJson);
      Ok(ChangeItem(contentId, changeType, path))
  }

  function ItemsFromJson(j: Json): (r: Result<seq<ChangeItem>, string>)
    ensures r.Ok? ==> j.JArray? && |r.value| == |j.items|
    ensures r.Ok? ==> forall i | 0 <= i < |j.items| :: ChangeItemFromJson(j.items[i]) == Ok(r.value[i])
  {
    Serde.ArrayOf(j, ChangeItemFromJson)
  }

  /** The derived `Deserialize`: both hashes are required; `values` may be
      missing or `null`, and is None then; other keys are ignored. */
  function FromJson(j: Json): (r: Result<PullRequestChanges, string>)
    ensures r.Ok? ==> Serde.StructForm(j, 3)
    ensures r.Ok? ==> Serde.Slot(j, "fromHash", 0) == Present(JString(r.value.fromHash))
    ensures r.Ok? ==> Serde.Slot(j, "toHash", 1) == Present(JString(r.value.toHash))
    ensures j.JObject? && Lookup(j.members, "values") == Absent ==> r.Ok? ==> r.value.values.None?
    ensures j.JArray? ==> (r.Ok? <==> (|j.items| == 3 && j.items[0].JString? && j.items[1].JString? &&
                                      (j.items[2] == JNull || ItemsFromJson(j.items[2]).Ok?)))
    ensures j.JArray? && r.Ok? ==> (r.value.values.None? <==> j.items[2] == JNull)
  {
    if !Serde.StructForm(j, 3) then Err("invalid type or length: expected struct PullRequestChanges with 3 elements")
    else
      var fromHash :- Serde.Required(Serde.Slot(j, "fromHash", 0), "fromHash", Serde.AsString);
      var toHash :- Serde.Required(Serde.Slot(j, "toHash", 1), "toHash", Serde.AsString);
      var values :- Serde.Optional(Serde.Slot(j, "values", 2), "values", ItemsFromJson);
      Ok(PullRequestChanges(fromHash, toHash, values))
  }

  lemma PathRoundTrip(p: Path)
    ensures PathFromJson(PathToJson(p)) == Ok(p)
  {
    ObjectAt(PATH_KEYS, [Some(JString(p.toString))], 0);
  }

  /** A change item is written with `contentId`, `type` and `path`, each
      field under its own key. */
  lemma ChangeItemLookups(c: ChangeItem)
    ensures ChangeItemToJson(c).JObject?
    ensures Lookup(ChangeItemToJson(c).members, "contentId") == Present(JString(c.contentId))
    ensures Lookup(ChangeItemToJson(c).members, "type") == Present(JString(c.changeType))
    ensures Lookup(ChangeItemToJson(c).members, "path") == Present(PathToJson(c.path))
  {
    var values := [Some(JString(c.contentId)), Some(JString(c.changeType)), Some(PathToJson(c.path))];
    ChangeItemKeysDistinct();
    ObjectAt(CHANGE_ITEM_KEYS, values, 0);
    ObjectAt(CHANGE_ITEM_KEYS, values, 1);
    ObjectAt(CHANGE_ITEM_KEYS, values, 2);
  }

  lemma ChangeItemRoundTrip(c: ChangeItem)
    ensures ChangeItemFromJson(ChangeItemToJson(c)) == Ok(c)
  {
    ChangeItemLookups(c);
    PathRoundTrip(c.path);
  }

  /** The items are written in sequence order and read back in it. */
  lemma ItemsRoundTrip(items: seq<ChangeItem>)
    ensures ItemsFromJson(ItemsToJson(items)) == Ok(items)
  {
    forall i | 0 <= i < |items| ensures ChangeItemFromJson(ChangeItemToJson(items[i])) == Ok(items[i]) {
      ChangeItemRoundTrip(items[i]);
    }
    Serde.ArrayRoundTrip(items, ChangeItemToJson, ChangeItemFromJson);
  }

  /** The keys written: the two hashes, then `values` exactly when there
      are items; nothing is ever written as `null`. */
  lemma ToJsonKeys(x: PullRequestChanges)
    ensures ToJson(x).JObject?
    ensures x.values.Some? ==> Keys(ToJson(x).members) == CHANGES_KEYS
    ensures x.values.None? ==> ToJson(x).members == [Member("fromHash", JString(x.fromHash)), Member("toHash", JString(x.toHash))]
  {
    var values := [Some(JString(x.fromHash)), Some(JString(x.toHash)), Serde.Emit(x.values, ItemsToJson)];
    ObjectShape(CHANGES_KEYS, values);
    if x.values.None? {
      CompactPrefix(CHANGES_KEYS, values, 2);
      CompactComplete(CHANGES_KEYS[..2], values[..2]);
    }
  }

  /** Deserialising what was serialised gives the original back. */
  lemma RoundTrip(x: PullRequestChanges)
    ensures FromJson(ToJson(x)) == Ok(x)
  {
    var values := [Some(JString(x.fromHash)), Some(JString(x.toHash)), Serde.Emit(x.values, ItemsToJson)];
    ChangesKeysDistinct();
    ObjectAt(CHANGES_KEYS, values, 0);
    ObjectAt(CHANGES_KEYS, values, 1);
    ObjectAt(CHANGES_KEYS, values, 2);
    if x.values.Some? {
      ItemsRoundTrip(x.values.value);
    }
    Serde.OptionalRoundTrip(x.values, "values", ItemsToJson, ItemsFromJson);
  }

  /** A page in the array form serde_json also accepts: the two hashes and
      the items in declaration order, None as `null`. */
  function Positional(x: PullRequestChanges): seq<Json> {
    [JString(x.fromHash), JString(x.toHash), Serde.OrNull(Serde.Emit(x.values, ItemsToJson))]
  }

  /** Read by position, every page comes back, so `["a", "b", null]` is the
      page with hashes "a" and "b" and no items. */
  lemma PositionalRoundTrip(x: PullRequestChanges)
    ensures FromJson(JArray(Positional(x))) == Ok(x)
  {
    var j := JArray(Positional(x));
    assert Serde.Optional(Serde.Slot(j, "values", 2), "values", ItemsFromJson) == Ok(x.values) by {
      if x.values.Some? {
        ItemsRoundTrip(x.values.value);
      }
      Serde.OptionalPositional(x.values, "values", ItemsToJson, ItemsFromJson);
    }
  }

  /** A path and a change item read by position. */
  lemma NestedPositional(p: Path, c: ChangeItem)
    ensures PathFromJson(JArray([JString(p.toString)])) == Ok(p)
    ensures ChangeItemFromJson(JArray([JString(c.contentId), JString(c.changeType), PathToJson(c.path)])) == Ok(c)
  {
    PathRoundTrip(c.path);
  }

  /** `mock_struct()` of the unit tests. */
  function MockStruct(): PullRequestChanges {
    PullRequestChanges("from_hash", "to_hash", Some([
      ChangeItem("12345", "ADD", Path("path/to/file")),
      ChangeItem("67890", "COPY", Path("another/target"))]))
  }

  function MockItem(contentId: string, changeType: string, path: string): Json {
    JObject([Member("contentId", JString(contentId)), Member("type", JString(changeType)),
             Member("path", JObject([Member("toString", JString(path))]))])
  }

  /** `mock_json()` of the unit tests, as a JSON value. */
  function MockJson(): Json {
    JObject([
      Member("fromHash", JString("from_hash")),
      Member("toHash", JString("to_hash")),
      Member("values", JArray([
        MockItem("12345", "ADD", "path/to/file"),
        MockItem("67890", "COPY", "another/target")]))])
  }

  /** A change item's object, member by member. */
  lemma ChangeItemMembers(c: ChangeItem)
    ensures ChangeItemToJson(c) == MockItem(c.contentId, c.changeType, c.path.toString)
  {
    CompactComplete(PATH_KEYS, [Some(JString(c.path.toString))]);
    assert PathToJson(c.path).members == [Member("toString", JString(c.path.toString))];
    var values := [Some(JString(c.contentId)), Some(JString(c.changeType)), Some(PathToJson(c.path))];
    CompactComplete(CHANGE_ITEM_KEYS, values);
    var ms := Compact(CHANGE_ITEM_KEYS, values);
    assert ms[0] == Member("contentId", JString(c.contentId));
    assert ms[1] == Member("type", JString(c.changeType));
    assert ms[2] == Member("path", PathToJson(c.path));
  }

  /** `it_can_serialize`: the mock struct serialises to the mock JSON. */
  lemma MockSerializes()
    ensures ToJson(MockStruct()) == MockJson()
  {
    var items := MockStruct().values.value;
    ChangeItemMembers(items[0]);
    ChangeItemMembers(items[1]);
    assert ItemsToJson(items).items == MockJson().members[2].value.items;
    CompactComplete(CHANGES_KEYS, [Some(JString("from_hash")), Some(JString("to_hash")), Some(ItemsToJson(items))]);
  }

  /** `it_can_deserialize`: the mock JSON deserialises to the mock struct. */
  lemma MockDeserializes()
    ensures FromJson(MockJson()) == Ok(MockStruct())
  {
    MockSerializes();
    RoundTrip(MockStruct());
  }

  /** `PullRequestChangesGet`, the request the builder produces. */
  datatype PullRequestChangesGet = PullRequestChangesGet(
    client: Client.Client,
    projectKey: string,
    pullRequestId: string,
    repositorySlug: string,
    sinceId: Option<string>,
    changeScope: Option<string>,
    untilId: Option<string>,
    start: Option<Numeric.u32>,
    limit: Option<Numeric.u32>,
    withComments: Option<bool>)

  /** The path below the base URL: the project and repository, then the
      pull request, ending in `/changes`. */
  function RequestUri(req: PullRequestChangesGet): (u: string)
    ensures "api/latest/projects/" + req.projectKey + "/repos/" <= u
    ensures |u| >= 8 && u[|u| - 8..] == "/changes"
  {
    var u := "api/latest/projects/" + req.projectKey + "/repos/" + req.repositorySlug + "/pull-requests/"
      + req.pullRequestId + "/changes";
    assert u[|u| - 8..] == "/changes";
    u
  }

  /** The query parameter names, in the order `send` inserts them. */
  const PARAM_KEYS: seq<string> := ["sinceId", "changeScope", "untilId", "start", "limit", "withComments"]

  /** The parameter map: starting empty, each set field inserts its
      text under its name, in `PARAM_KEYS` order: strings as they are,
      numbers in decimal, booleans as `true`/`false`. */
  function QueryParams(req: PullRequestChangesGet): (m: map<string, string>)
    ensures forall k | k in m :: k in PARAM_KEYS
  {
    var m0: map<string, string> := map[];
    var m1 := if req.sinceId.Some? then m0["sinceId" := req.sinceId.value] else m0;
    var m2 := if req.changeScope.Some? then m1["changeScope" := req.changeScope.value] else m1;
    var m3 := if req.untilId.Some? then m2["untilId" := req.untilId.value] else m2;
    var m4 := if req.start.Some? then m3["start" := Numeric.NatToDecimal(req.start.value)] else m3;
    var m5 := if req.limit.Some? then m4["limit" := Numeric.NatToDecimal(req.limit.value)] else m4;
    if req.withComments.Some? then m5["withComments" := Numeric.BoolToString(req.withComments.value)] else m5
  }

  /** Each name is in the map exactly when its field is set, and nothing
      else is. */
  lemma QueryParamsKeys(req: PullRequestChangesGet)
    ensures forall k | k in QueryParams(req) :: k in PARAM_KEYS
    ensures "sinceId" in QueryParams(req) <==> req.sinceId.Some?
    ensures "changeScope" in QueryParams(req) <==> req.changeScope.Some?
    ensures "untilId" in QueryParams(req) <==> req.untilId.Some?
    ensures "start" in QueryParams(req) <==> req.start.Some?
    ensures "limit" in QueryParams(req) <==> req.limit.Some?
    ensures "withComments" in QueryParams(req) <==> req.withComments.Some?
  {
    assert "sinceId" in PARAM_KEYS && "changeScope" in PARAM_KEYS && "untilId" in PARAM_KEYS;
    assert "start" in PARAM_KEYS && "limit" in PARAM_KEYS && "withComments" in PARAM_KEYS;
  }

  /** The values: the strings unchanged, `start` and `limit` as decimal
      text that reads back as the number, `withComments` as `true` or
      `false`. */
  lemma QueryParamsValues(req: PullRequestChangesGet)
    ensures req.sinceId.Some? ==> QueryParams(req)["sinceId"] == req.sinceId.value
    ensures req.changeScope.Some? ==> QueryParams(req)["changeScope"] == req.changeScope.value
    ensures req.untilId.Some? ==> QueryParams(req)["untilId"] == req.untilId.value
    ensures req.start.Some? ==> Numeric.DecimalValue(QueryParams(req)["start"]) == req.start.value
    ensures req.limit.Some? ==> Numeric.DecimalValue(QueryParams(req)["limit"]) == req.limit.value
    ensures req.withComments.Some? ==>
      (QueryParams(req)["withComments"] == "true" <==> req.withComments.value) &&
      (QueryParams(req)["withComments"] == "false" <==> !req.withComments.value)
  {
    QueryParamsKeys(req);
    if req.start.Some? {
      Numeric.DecimalRoundTrip(req.start.value);
    }
    if req.limit.Some? {
      Numeric.DecimalRoundTrip(req.limit.value);
    }
  }

  /** The parameter map determines the six optional fields: two requests
      that send the same query agree on all of them. */
  lemma QueryParamsInjective(a: PullRequestChangesGet, b: PullRequestChangesGet)
    requires QueryParams(a) == QueryParams(b)
    ensures a.sinceId == b.sinceId && a.changeScope == b.changeScope && a.untilId == b.untilId
    ensures a.start == b.start && a.limit == b.limit && a.withComments == b.withComments
  {
    QueryParamsKeys(a);
    QueryParamsKeys(b);
    QueryParamsValues(a);
    QueryParamsValues(b);
    if a.start.Some? {
      Numeric.DecimalInjective(a.start.value, b.start.value);
    }
    if a.limit.Some? {
      Numeric.DecimalInjective(a.limit.value, b.limit.value);
    }
  }

  /** The request `send` issues: a GET of the changes path of the pull
      request with the parameter map. */
  function Request(req: PullRequestChangesGet): (r: Client.HttpRequest)
    reads req.client
    ensures r.verb == Client.GET && r.body == None
    ensures r.url == req.client.basePath + "/" + RequestUri(req)
    ensures r.query == QueryParams(req)
    ensures Client.HeaderValue(r.headers, "Authorization") == Some("Bearer " + req.client.apiToken)
  {
    req.client.GetRequest(RequestUri(req), Some(QueryParams(req)))
  }

  /** `Output = PullRequestChanges`: `serde_json::from_str` with the derived decoder. */
  function OutputDecoder(parse: string -> Result<Json, string>): (f: string -> Result<PullRequestChanges, string>)
    ensures forall text :: parse(text).Err? ==> f(text).Err?
    ensures forall text :: parse(text).Ok? ==> f(text) == FromJson(parse(text).value)
  {
    Serde.FromText(parse, FromJson)
  }

  /** `ApiRequest::send` for `PullRequestChangesGet`: the parameter map
      starts empty and receives one insert per set field. */
  method Send(req: PullRequestChangesGet, parse: string -> Result<Json, string>)
    returns (r: Client.ApiResponse<PullRequestChanges>)
    ensures r == Client.Execute(req.client.httpClient(Request(req)), OutputDecoder(parse))
  {
    var uri := "api/latest/projects/" + req.projectKey + "/repos/" + req.repositorySlug + "/pull-requests/"
      + req.pullRequestId + "/changes";
    var params: map<string, string> := map[];
    if req.sinceId.Some? {
      params := params["sinceId" := req.sinceId.value];
    }
    if req.changeScope.Some? {
      params := params["changeScope" := req.changeScope.value];
    }
    if req.untilId.Some? {
      params := params["untilId" := req.untilId.value];
    }
    if req.start.Some? {
      params := params["start" := Numeric.NatToDecimal(req.start.value)];
    }
    if req.limit.Some? {
      params := params["limit" := Numeric.NatToDecimal(req.limit.value)];
    }
    if req.withComments.Some? {
      params := params["withComments" := Numeric.BoolToString(req.withComments.value)];
    }
    r := req.client.Get(uri, Some(params), OutputDecoder(parse));
  }

  /** An empty 2xx body is `Ok(None)`; a body that parses to a changes
      object gives that page. */
  lemma SendResults(response: Client.Response, parse: string -> Result<Json, string>)
    requires Client.IsSuccess(response.status) && response.body.Text?
    ensures response.body.text == "" <==>
      Client.Execute(Client.Sent(response), OutputDecoder(parse)) == Ok(None)
    ensures forall x: PullRequestChanges | response.body.text != "" && parse(response.body.text) == Ok(ToJson(x)) ::
      Client.Execute(Client.Sent(response), OutputDecoder(parse)) == Ok(Some(x))
  {
    forall x: PullRequestChanges | response.body.text != "" && parse(response.body.text) == Ok(ToJson(x))
      ensures Client.Execute(Client.Sent(response), OutputDecoder(parse)) == Ok(Some(x))
    {
      RoundTrip(x);
    }
  }

  datatype PullRequestChangesGetBuilderError = UninitializedField(field: string)

  /** The builder's fields at one moment; the optional request fields are
      doubly optional: unset, or set to a value. */
  datatype BuilderFields = BuilderFields(
    client: Option<Client.Client>,
    projectKey: Option<string>,
    pullRequestId: Option<string>,
    repositorySlug: Option<string>,
    sinceId: Option<Option<string>>,
    changeScope: Option<Option<string>>,
    untilId: Option<Option<string>>,
    start: Option<Option<Numeric.u32>>,
    limit: Option<Option<Numeric.u32>>,
    withComments: Option<Option<bool>>)

  const UNSET: BuilderFields := BuilderFields(None, None, None, None, None, None, None, None, None, None)

  /** The derived builder. */
  class PullRequestChangesGetBuilder {
    var client: Option<Client.Client>
    var projectKey: Option<string>
    var pullRequestId: Option<string>
    var repositorySlug: Option<string>
    var sinceId: Option<Option<string>>
    var changeScope: Option<Option<string>>
    var untilId: Option<Option<string>>
    var start: Option<Option<Numeric.u32>>
    var limit: Option<Option<Numeric.u32>>
    var withComments: Option<Option<bool>>

    function Current(): BuilderFields
      reads this
    {
      BuilderFields(client, projectKey, pullRequestId, repositorySlug, sinceId, changeScope, untilId,
        start, limit, withComments)
    }

    /** `PullRequestChangesGetBuilder::default()`: nothing set. */
    constructor New()
      ensures Current() == UNSET
    {
      client := None;
      projectKey := None;
      pullRequestId := None;
      repositorySlug := None;
      sinceId := None;
      changeScope := None;
      untilId := None;
      start := None;
      limit := None;
      withComments := None;
    }

    method SetClient(value: Client.Client)
      modifies this
      ensures Current() == old(Current()).(client := Some(value))
    {
      client := Some(value);
    }

    method SetProjectKey(value: string)
      modifies this
      ensures Current() == old(Current()).(projectKey := Some(value))
    {
      projectKey := Some(value);
    }

    method SetPullRequestId(value: string)
      modifies this
      ensures Current() == old(Current()).(pullRequestId := Some(value))
    {
      pullRequestId := Some(value);
    }

    method SetRepositorySlug(value: string)
      modifies this
      ensures Current() == old(Current()).(repositorySlug := Some(value))
    {
      repositorySlug := Some(value);
    }

    method SetSinceId(value: string)
      modifies this
      ensures Current() == old(Current()).(sinceId := Some(Some(value)))
    {
      sinceId := Some(Some(value));
    }

    method SetChangeScope(value: string)
      modifies this
      ensures Current() == old(Current()).(changeScope := Some(Some(value)))
    {
      changeScope := Some(Some(value));
    }

    method SetUntilId(value: string)
      modifies this
      ensures Current() == old(Current()).(untilId := Some(Some(value)))
    {
      untilId := Some(Some(value));
    }

    method SetStart(value: Numeric.u32)
      modifies this
      ensures Current() == old(Current()).(start := Some(Some(value)))
    {
      start := Some(Some(value));
    }

    method SetLimit(value: Numeric.u32)
      modifies this
      ensures Current() == old(Current()).(limit := Some(Some(value)))
    {
      limit := Some(Some(value));
    }

    method SetWithComments(value: bool)
      modifies this
      ensures Current() == old(Current()).(withComments := Some(Some(value)))
    {
      withComments := Some(Some(value));
    }

    /** The first required field still unset, in declaration order. */
    function FirstMissing(): (f: Option<string>)
      reads this
      ensures f.None? <==> client.Some? && projectKey.Some? && pullRequestId.Some? && repositorySlug.Some?
      ensures f.Some? ==> f.value in ["client", "project_key", "pull_request_id", "repository_slug"]
    {
      if client.None? then Some("client")
      else if projectKey.None? then Some("project_key")
      else if pullRequestId.None? then Some("pull_request_id")
      else if repositorySlug.None? then Some("repository_slug")
      else None
    }

    /** `build`: fails on the first unset required field; otherwise a
        request with a clone of the client, the set values, and None for
        every optional field never set. */
    method Build() returns (r: Result<PullRequestChangesGet, PullRequestChangesGetBuilderError>)
      ensures r.Err? <==> FirstMissing().Some?
      ensures r.Err? ==> r.error == UninitializedField(FirstMissing().value)
      ensures r.Ok? ==> fresh(r.value.client)
      ensures r.Ok? ==> r.value.client.basePath == client.value.basePath &&
                        r.value.client.apiToken == client.value.apiToken &&
                        r.value.client.httpClient == client.value.httpClient
      ensures r.Ok? ==> r.value.projectKey == projectKey.value && r.value.pullRequestId == pullRequestId.value &&
                        r.value.repositorySlug == repositorySlug.value
      ensures r.Ok? ==> r.value.sinceId == sinceId.GetOr(None) && r.value.changeScope == changeScope.GetOr(None)
      ensures r.Ok? ==> r.value.untilId == untilId.GetOr(None) && r.value.start == start.GetOr(None)
      ensures r.Ok? ==> r.value.limit == limit.GetOr(None) && r.value.withComments == withComments.GetOr(None)
    {
      if client.None? {
        return Err(UninitializedField("client"));
      }
      if projectKey.None? {
        return Err(UninitializedField("project_key"));
      }
      if pullRequestId.None? {
        return Err(UninitializedField("pull_request_id"));
      }
      if repositorySlug.None? {
        return Err(UninitializedField("repository_slug"));
      }
      var c := client.value.Clone();
      r := Ok(PullRequestChangesGet(c, projectKey.value, pullRequestId.value, repositorySlug.value,
        sinceId.GetOr(None), changeScope.GetOr(None), untilId.GetOr(None), start.GetOr(None),
        limit.GetOr(None), withComments.GetOr(None)));
    }
  }

  /** `Api::pull_request_changes_get`: a fresh builder with a clone of the
      client and the three path values set, every optional field unset. */
  method NewPullRequestChangesGetBuilder(apiClient: Client.Client, projectKey: string, repositorySlug: string,
                                         pullRequestId: string)
    returns (b: PullRequestChangesGetBuilder)
    ensures fresh(b) && b.client.Some? && fresh(b.client.value)
    ensures b.client.value.basePath == apiClient.basePath && b.client.value.apiToken == apiClient.apiToken
    ensures b.client.value.httpClient == apiClient.httpClient
    ensures b.Current() == UNSET.(client := b.client, projectKey := Some(projectKey),
                                  pullRequestId := Some(pullRequestId), repositorySlug := Some(repositorySlug))
    ensures b.FirstMissing().None?
  {
    b := new PullRequestChangesGetBuilder.New();
    var c := apiClient.Clone();
    b.SetClient(c);
    b.SetProjectKey(projectKey);
    b.SetRepositorySlug(repositorySlug);
    b.SetPullRequestId(pullRequestId);
  }

  /** The request with every parameter set to the integration test's values:
      the changes path of the pull request and exactly the six pairs. */
  method BuildWithAllParams(apiClient: Client.Client, projectKey: string, repositorySlug: string, pullRequestId: string)
    returns (req: PullRequestChangesGet)
    ensures RequestUri(req) ==
      "api/latest/projects/" + projectKey + "/repos/" + repositorySlug + "/pull-requests/" + pullRequestId + "/changes"
    ensures QueryParams(req) == map["sinceId" := "SINCE_ID", "changeScope" := "SCOPE", "untilId" := "UNTIL_ID",
                                    "start" := "1", "limit" := "10", "withComments" := "true"]
  {
    var b := NewPullRequestChangesGetBuilder(apiClient, projectKey, repositorySlug, pullRequestId);
    b.SetChangeScope("SCOPE");
    b.SetSinceId("SINCE_ID");
    b.SetUntilId("UNTIL_ID");
    b.SetStart(1);
    b.SetLimit(10);
    b.SetWithComments(true);
    var r := b.Build();
    req := r.value;
    assert Numeric.NatToDecimal(1) == "1" && Numeric.NatToDecimal(10) == "10";
  }
}
