/** The pull-request creation endpoint: the payload, its JSON form, and the
    POST request carrying it. */
module PullRequestPost {
  import opened Wrappers
  import opened Json
  import Serde
  import Client

  datatype User = User(name: string)

  datatype Reviewer = Reviewer(user: User)

  datatype ProjectInfo = ProjectInfo(key: string)

  datatype RepositoryInfo = RepositoryInfo(slug: string, project: ProjectInfo)

  /** A branch reference and the repository it lives in; serialised as
      `{"id": …, "repository": {"slug": …, "project": {"key": …}}}`. */
  datatype RefInfo = RefInfo(id: string, repository: RepositoryInfo)

  /** `PullRequestPostPayload`: also the type of the server's answer. */
  datatype PullRequestPostPayload = PullRequestPostPayload(
    title: string,
    description: Option<string>,
    fromRef: RefInfo,
    toRef: RefInfo,
    reviewers: Option<seq<Reviewer>>)

  /** The wire names in declaration order (`rename_all = "camelCase"`). */
  const PAYLOAD_KEYS: seq<string> := ["title", "description", "fromRef", "toRef", "reviewers"]
  const REF_KEYS: seq<string> := ["id", "repository"]
  const REPOSITORY_KEYS: seq<string> := ["slug", "project"]

  lemma PayloadKeysDistinct()
    ensures NoDuplicates(PAYLOAD_KEYS)
  {
  }

  function UserToJson(u: User): Json {
    Object(["name"], [Some(JString(u.name))])
  }

  function ReviewerToJson(r: Reviewer): Json {
    Object(["user"], [Some(UserToJson(r.user))])
  }

  function ProjectToJson(p: ProjectInfo): Json {
    Object(["key"], [Some(JString(p.key))])
  }

  function RepositoryToJson(r: RepositoryInfo): Json {
    Object(REPOSITORY_KEYS, [Some(JString(r.slug)), Some(ProjectToJson(r.project))])
  }

  function RefToJson(r: RefInfo): Json {
    Object(REF_KEYS, [Some(JString(r.id)), Some(RepositoryToJson(r.repository))])
  }

  /** The reviewer list: an array in the list's order. */
  function ReviewersToJson(rs: seq<Reviewer>): Json {
    Serde.ArrayToJson(rs, ReviewerToJson)
  }

  function Values(p: PullRequestPostPayload): seq<Option<Json>> {
    [Some(JString(p.title)),
     Serde.Emit(p.description, Serde.StringToJson),
     Some(RefToJson(p.fromRef)),
     Some(RefToJson(p.toRef)),
     Serde.Emit(p.reviewers, ReviewersToJson)]
  }

  /** The derived `Serialize`: title, description, fromRef, toRef,
      reviewers, with a None description or reviewer list left out. */
  function ToJson(p: PullRequestPostPayload): Json {
    Object(PAYLOAD_KEYS, Values(p))
  }

  function UserFromJson(j: Json): (r: Result<User, string>)
    ensures r.Ok? ==> Serde.StructForm(j, 1) && Serde.Slot(j, "name", 0) == Present(JString(r.value.name))
    ensures j.JArray? ==> (r.Ok? <==> |j.items| == 1 && j.items[0].JString?)
  {
    if !Serde.StructForm(j, 1) then Err("invalid type or length: expected struct User with 1 element")
    else
      var name :- Serde.Required(Serde.Slot(j, "name", 0), "name", Serde.AsString);
      Ok(User(name))
  }

  function ReviewerFromJson(j: Json): (r: Result<Reviewer, string>)
    ensures r.Ok? ==> Serde.StructForm(j, 1) && Serde.Slot(j, "user", 0).Present?
    ensures r.Ok? ==> UserFromJson(Serde.Slot(j, "user", 0).value) == Ok(r.value.user)
    ensures j.JArray? ==> (r.Ok? <==> |j.items| == 1 && UserFromJson(j.items[0]).Ok?)
  {
    if !Serde.StructForm(j, 1) then Err("invalid type or length: expected struct Reviewer with 1 element")
    else
      var user :- Serde.Required(Serde.Slot(j, "user", 0), "user", UserFromJson);
      Ok(Reviewer(user))
  }

  function ProjectFromJson(j: Json): (r: Result<ProjectInfo, string>)
    ensures r.Ok? ==> Serde.StructForm(j, 1) && Serde.Slot(j, "key", 0) == Present(JString(r.value.key))
    ensures j.JArray? ==> (r.Ok? <==> |j.items| == 1 && j.items[0].JString?)
  {
    if !Serde.StructForm(j, 1) then Err("invalid type or length: expected struct ProjectInfo with 1 element")
    else
      var key :- Serde.Required(Serde.Slot(j, "key", 0), "key", Serde.AsString);
      Ok(ProjectInfo(key))
  }

  function RepositoryFromJson(j: Json): (r: Result<RepositoryInfo, string>)
    ensures r.Ok? ==> Serde.StructForm(j, 2) && Serde.Slot(j, "slug", 0) == Present(JString(r.value.slug))
    ensures r.Ok? ==> Serde.Slot(j, "project", 1).Present? &&
                      ProjectFromJson(Serde.Slot(j, "project", 1).value) == Ok(r.value.project)
    ensures j.JArray? ==> (r.Ok? <==> |j.items| == 2 && j.items[0].JString? && ProjectFromJson(j.items[1]).Ok?)
  {
    if !Serde.StructForm(j, 2) then Err("invalid type or length: expected struct RepositoryInfo with 2 elements")
    else
      var slug :- Serde.Required(Serde.Slot(j, "slug", 0), "slug", Serde.AsString);
      var project :- Serde.Required(Serde.Slot(j, "project", 1), "project", ProjectFromJson);
      Ok(RepositoryInfo(slug, project))
  }

  function RefFromJson(j: Json): (r: Result<RefInfo, string>)
    ensures r.Ok? ==> Serde.StructForm(j, 2) && Serde.Slot(j, "id", 0) == Present(JString(r.value.id))
    ensures r.Ok? ==> Serde.Slot(j, "repository", 1).Present? &&
                      RepositoryFromJson(Serde.Slot(j, "repository", 1).value) == Ok(r.value.repository)
    ensures j.JArray? ==> (r.Ok? <==> |j.items| == 2 && j.items[0].JString? && RepositoryFromJson(j.items[1]).Ok?)
  {
    if !Serde.StructForm(j, 2) then Err("invalid type or length: expected struct RefInfo with 2 elements")
    else
      var id :- Serde.Required(Serde.Slot(j, "id", 0), "id", Serde.AsString);
      var repository :- Serde.Required(Serde.Slot(j, "repository", 1), "repository", RepositoryFromJson);
      Ok(RefInfo(id, repository))
  }

  function ReviewersFromJson(j: Json): (r: Result<seq<Reviewer>, string>)
    ensures r.Ok? ==> j.JArray? && |r.value| == |j.items|
    ensures r.Ok? ==> forall i | 0 <= i < |j.items| :: ReviewerFromJson(j.items[i]) == Ok(r.value[i])
  {
    Serde.ArrayOf(j, ReviewerFromJson)
  }

  /** The derived `Deserialize`: title and both refs are required; the
      description and the reviewer list may be missing or `null`. */
  function FromJson(j: Json): (r: Result<PullRequestPostPayload, string>)
    ensures r.Ok? ==> Serde.StructForm(j, 5) && Serde.Slot(j, "title", 0) == Present(JString(r.value.title))
    ensures r.Ok? ==> Serde.Slot(j, "fromRef", 2).Present? &&
                      RefFromJson(Serde.Slot(j, "fromRef", 2).value) == Ok(r.value.fromRef)
    ensures r.Ok? ==> Serde.Slot(j, "toRef", 3).Present? &&
                      RefFromJson(Serde.Slot(j, "toRef", 3).value) == Ok(r.value.toRef)
    ensures j.JObject? && Lookup(j.members, "description") == Absent ==> r.Ok? ==> r.value.description.None?
    ensures j.JObject? && Lookup(j.members, "reviewers") == Absent ==> r.Ok? ==> r.value.reviewers.None?
    ensures j.JArray? ==> (r.Ok? <==> (|j.items| == 5 && j.items[0].JString? &&
                                      (j.items[1] == JNull || j.items[1].JString?) &&
                                      RefFromJson(j.items[2]).Ok? && RefFromJson(j.items[3]).Ok? &&
                                      (j.items[4] == JNull || ReviewersFromJson(j.items[4]).Ok?)))
  {
    if !Serde.StructForm(j, 5) then Err("invalid type or length: expected struct PullRequestPostPayload with 5 elements")
    else
      var title :- Serde.Required(Serde.Slot(j, "title", 0), "title", Serde.AsString);
      var description :- Serde.Optional(Serde.Slot(j, "description", 1), "description", Serde.AsString);
      var fromRef :- Serde.Required(Serde.Slot(j, "fromRef", 2), "fromRef", RefFromJson);
      var toRef :- Serde.Required(Serde.Slot(j, "toRef", 3), "toRef", RefFromJson);
      var reviewers :- Serde.Optional(Serde.Slot(j, "reviewers", 4), "reviewers", ReviewersFromJson);
      Ok(PullRequestPostPayload(title, description, fromRef, toRef, reviewers))
  }

  lemma UserRoundTrip(u: User)
    ensures UserFromJson(UserToJson(u)) == Ok(u)
  {
    ObjectAt(["name"], [Some(JString(u.name))], 0);
  }

  lemma ReviewerRoundTrip(r: Reviewer)
    ensures ReviewerFromJson(ReviewerToJson(r)) == Ok(r)
  {
    ObjectAt(["user"], [Some(UserToJson(r.user))], 0);
    UserRoundTrip(r.user);
  }

  /** The reviewers are written in the list's order and read back in it. */
  lemma ReviewersRoundTrip(rs: seq<Reviewer>)
    ensures ReviewersFromJson(ReviewersToJson(rs)) == Ok(rs)
  {
    forall i | 0 <= i < |rs| ensures ReviewerFromJson(ReviewerToJson(rs[i])) == Ok(rs[i]) {
      ReviewerRoundTrip(rs[i]);
    }
    Serde.ArrayRoundTrip(rs, ReviewerToJson, ReviewerFromJson);
  }

  lemma ProjectRoundTrip(p: ProjectInfo)
    ensures ProjectFromJson(ProjectToJson(p)) == Ok(p)
  {
    ObjectAt(["key"], [Some(JString(p.key))], 0);
  }

  lemma RepositoryRoundTrip(r: RepositoryInfo)
    ensures RepositoryFromJson(RepositoryToJson(r)) == Ok(r)
  {
    var values := [Some(JString(r.slug)), Some(ProjectToJson(r.project))];
    ObjectAt(REPOSITORY_KEYS, values, 0);
    ObjectAt(REPOSITORY_KEYS, values, 1);
    ProjectRoundTrip(r.project);
  }

  /** A branch reference reads back as itself, nested levels included. */
  lemma RefRoundTrip(r: RefInfo)
    ensures RefFromJson(RefToJson(r)) == Ok(r)
  {
    var values := [Some(JString(r.id)), Some(RepositoryToJson(r.repository))];
    ObjectAt(REF_KEYS, values, 0);
    ObjectAt(REF_KEYS, values, 1);
    RepositoryRoundTrip(r.repository);
  }

  /** Each payload field is found under its own key; the two optional ones
      are absent exactly when None. */
  lemma PayloadLookups(p: PullRequestPostPayload)
    ensures ToJson(p).JObject?
    ensures Lookup(ToJson(p).members, "title") == Present(JString(p.title))
    ensures Lookup(ToJson(p).members, "description") == FieldOf(Serde.Emit(p.description, Serde.StringToJson))
    ensures Lookup(ToJson(p).members, "fromRef") == Present(RefToJson(p.fromRef))
    ensures Lookup(ToJson(p).members, "toRef") == Present(RefToJson(p.toRef))
    ensures Lookup(ToJson(p).members, "reviewers") == FieldOf(Serde.Emit(p.reviewers, ReviewersToJson))
  {
    PayloadKeysDistinct();
    ObjectAt(PAYLOAD_KEYS, Values(p), 0);
    ObjectAt(PAYLOAD_KEYS, Values(p), 1);
    ObjectAt(PAYLOAD_KEYS, Values(p), 2);
    ObjectAt(PAYLOAD_KEYS, Values(p), 3);
    ObjectAt(PAYLOAD_KEYS, Values(p), 4);
  }

  /** Deserialising a serialised payload gives it back. */
  lemma RoundTrip(p: PullRequestPostPayload)
    ensures FromJson(ToJson(p)) == Ok(p)
  {
    PayloadLookups(p);
    RefRoundTrip(p.fromRef);
    RefRoundTrip(p.toRef);
    if p.reviewers.Some? {
      ReviewersRoundTrip(p.reviewers.value);
    }
    Serde.OptionalRoundTrip(p.description, "description", Serde.StringToJson, Serde.AsString);
    Serde.OptionalRoundTrip(p.reviewers, "reviewers", ReviewersToJson, ReviewersFromJson);
  }

  /** A payload in the array form serde_json also accepts: its fields in
      declaration order, None as `null`. */
  function Positional(p: PullRequestPostPayload): seq<Json> {
    [JString(p.title),
     Serde.OrNull(Serde.Emit(p.description, Serde.StringToJson)),
     RefToJson(p.fromRef),
     RefToJson(p.toRef),
     Serde.OrNull(Serde.Emit(p.reviewers, ReviewersToJson))]
  }

  /** Read by position, every payload comes back. */
  lemma PositionalRoundTrip(p: PullRequestPostPayload)
    ensures FromJson(JArray(Positional(p))) == Ok(p)
  {
    var j := JArray(Positional(p));
    assert Serde.Required(Serde.Slot(j, "fromRef", 2), "fromRef", RefFromJson) == Ok(p.fromRef) by {
      RefRoundTrip(p.fromRef);
    }
    assert Serde.Required(Serde.Slot(j, "toRef", 3), "toRef", RefFromJson) == Ok(p.toRef) by {
      RefRoundTrip(p.toRef);
    }
    assert Serde.Optional(Serde.Slot(j, "description", 1), "description", Serde.AsString) == Ok(p.description) by {
      Serde.OptionalPositional(p.description, "description", Serde.StringToJson, Serde.AsString);
    }
    assert Serde.Optional(Serde.Slot(j, "reviewers", 4), "reviewers", ReviewersFromJson) == Ok(p.reviewers) by {
      if p.reviewers.Some? {
        ReviewersRoundTrip(p.reviewers.value);
      }
      Serde.OptionalPositional(p.reviewers, "reviewers", ReviewersToJson, ReviewersFromJson);
    }
  }

  /** The one-field structs read by position: `["n"]` is the user "n". */
  lemma LeafPositional(u: User, pr: ProjectInfo)
    ensures UserFromJson(JArray([JString(u.name)])) == Ok(u)
    ensures ReviewerFromJson(JArray([JArray([JString(u.name)])])) == Ok(Reviewer(u))
    ensures ProjectFromJson(JArray([JString(pr.key)])) == Ok(pr)
  {
  }

  /** A repository reads by position from the array of its fields. */
  lemma RepositoryPositional(repo: RepositoryInfo)
    ensures RepositoryFromJson(JArray([JString(repo.slug), ProjectToJson(repo.project)])) == Ok(repo)
  {
    ProjectRoundTrip(repo.project);
  }

  /** A branch reference reads by position from the array of its fields. */
  lemma RefPositional(ref: RefInfo)
    ensures RefFromJson(JArray([JString(ref.id), RepositoryToJson(ref.repository)])) == Ok(ref)
  {
    RepositoryRoundTrip(ref.repository);
  }



  /** The keys written, in order: title, then description if set, the two
      refs, then reviewers if set. */
  lemma PayloadKeys(p: PullRequestPostPayload)
    ensures ToJson(p).JObject?
    ensures Keys(ToJson(p).members) ==
      ["title"] + (if p.description.Some? then ["description"] else []) + ["fromRef", "toRef"]
      + (if p.reviewers.Some? then ["reviewers"] else [])
  {
    var v := Values(p);
    RefsKeys(p);
    assert PAYLOAD_KEYS[1..][1..] == PAYLOAD_KEYS[2..] && v[1..][1..] == v[2..];
    var rest := Compact(PAYLOAD_KEYS[1..], v[1..]);
    assert Keys(rest) == (if p.description.Some? then ["description"] else []) +
      Keys(Compact(PAYLOAD_KEYS[2..], v[2..]));
    var all := Compact(PAYLOAD_KEYS, v);
    assert all == [Member("title", JString(p.title))] + rest;
  }

  /** The keys written from `fromRef` on. */
  lemma RefsKeys(p: PullRequestPostPayload)
    ensures Keys(Compact(PAYLOAD_KEYS[2..], Values(p)[2..])) ==
      ["fromRef", "toRef"] + (if p.reviewers.Some? then ["reviewers"] else [])
  {
    var v := Values(p);
    var tail := Compact(PAYLOAD_KEYS[4..], v[4..]);
    assert Keys(tail) == if p.reviewers.Some? then ["reviewers"] else [];
    assert PAYLOAD_KEYS[3..][1..] == PAYLOAD_KEYS[4..] && v[3..][1..] == v[4..];
    var toRef := Compact(PAYLOAD_KEYS[3..], v[3..]);
    assert toRef == [Member("toRef", RefToJson(p.toRef))] + tail;
    assert PAYLOAD_KEYS[2..][1..] == PAYLOAD_KEYS[3..] && v[2..][1..] == v[3..];
    var refs := Compact(PAYLOAD_KEYS[2..], v[2..]);
    assert refs == [Member("fromRef", RefToJson(p.fromRef))] + toRef;
  }

  /** The reviewers appear in the list's order. */
  lemma ReviewersInOrder(p: PullRequestPostPayload)
    requires p.reviewers.Some?
    ensures Get(ToJson(p), "reviewers").Some?
    ensures Get(ToJson(p), "reviewers").value.JArray?
    ensures forall i | 0 <= i < |p.reviewers.value| ::
      i < |Get(ToJson(p), "reviewers").value.items| &&
      Get(ToJson(p), "reviewers").value.items[i] == ReviewerToJson(p.reviewers.value[i])
  {
    PayloadKeysDistinct();
    ObjectAt(PAYLOAD_KEYS, Values(p), 4);
  }

  /** The object of a branch reference, member by member. */
  function RefJson(id: string, slug: string, key: string): Json {
    JObject([Member("id", JString(id)),
             Member("repository", JObject([Member("slug", JString(slug)),
                                           Member("project", JObject([Member("key", JString(key))]))]))])
  }

  lemma RefMembers(r: RefInfo)
    ensures RefToJson(r) == RefJson(r.id, r.repository.slug, r.repository.project.key)
  {
    CompactComplete(["key"], [Some(JString(r.repository.project.key))]);
    assert ProjectToJson(r.repository.project).members == [Member("key", JString(r.repository.project.key))];
    var repo := [Some(JString(r.repository.slug)), Some(ProjectToJson(r.repository.project))];
    CompactComplete(REPOSITORY_KEYS, repo);
    assert Compact(REPOSITORY_KEYS, repo) ==
      [Member("slug", JString(r.repository.slug)), Member("project", ProjectToJson(r.repository.project))];
    var ref := [Some(JString(r.id)), Some(RepositoryToJson(r.repository))];
    CompactComplete(REF_KEYS, ref);
    assert Compact(REF_KEYS, ref) == [Member("id", JString(r.id)), Member("repository", RepositoryToJson(r.repository))];
  }

  lemma ReviewerMembers(r: Reviewer)
    ensures ReviewerToJson(r) == JObject([Member("user", JObject([Member("name", JString(r.user.name))]))])
  {
    CompactComplete(["name"], [Some(JString(r.user.name))]);
    assert UserToJson(r.user).members == [Member("name", JString(r.user.name))];
    CompactComplete(["user"], [Some(UserToJson(r.user))]);
    assert ReviewerToJson(r).members == [Member("user", UserToJson(r.user))];
  }

  /** A payload with every field set: all five members, in declaration order. */
  lemma FullMembers(p: PullRequestPostPayload)
    requires p.description.Some? && p.reviewers.Some?
    ensures ToJson(p).members == [
      Member("title", JString(p.title)),
      Member("description", JString(p.description.value)),
      Member("fromRef", RefToJson(p.fromRef)),
      Member("toRef", RefToJson(p.toRef)),
      Member("reviewers", ReviewersToJson(p.reviewers.value))]
  {
    assert None !in Values(p);
    CompactComplete(PAYLOAD_KEYS, Values(p));
    var ms := Compact(PAYLOAD_KEYS, Values(p));
    assert ms[0] == Member("title", JString(p.title));
    assert ms[1] == Member("description", JString(p.description.value));
    assert ms[2] == Member("fromRef", RefToJson(p.fromRef));
    assert ms[3] == Member("toRef", RefToJson(p.toRef));
    assert ms[4] == Member("reviewers", ReviewersToJson(p.reviewers.value));
  }

  /** A payload without description and reviewers: exactly title and the
      two refs. */
  lemma BareMembers(p: PullRequestPostPayload)
    requires p.description.None? && p.reviewers.None?
    ensures ToJson(p).members == [
      Member("title", JString(p.title)),
      Member("fromRef", RefToJson(p.fromRef)),
      Member("toRef", RefToJson(p.toRef))]
  {
    var v := Values(p);
    CompactPrefix(PAYLOAD_KEYS, v, 4);
    assert Compact(PAYLOAD_KEYS[..4][3..], v[..4][3..]) == [Member("toRef", RefToJson(p.toRef))];
    assert Compact(PAYLOAD_KEYS[..4][1..], v[..4][1..]) ==
      [Member("fromRef", RefToJson(p.fromRef)), Member("toRef", RefToJson(p.toRef))];
  }

  function FeatureRef(): RefInfo {
    RefInfo("refs/heads/feature", RepositoryInfo("test-repo", ProjectInfo("TEST")))
  }

  function MainRef(): RefInfo {
    RefInfo("refs/heads/main", RepositoryInfo("test-repo", ProjectInfo("TEST")))
  }

  /** The payload of `it_can_serialize`. */
  function FullFixture(): PullRequestPostPayload {
    PullRequestPostPayload("Test PR", Some("Test description"), FeatureRef(), MainRef(),
      Some([Reviewer(User("testuser"))]))
  }

  /** The payload of `it_can_serialize_partially`. */
  function PartialFixture(): PullRequestPostPayload {
    PullRequestPostPayload("Test PR", None, FeatureRef(), MainRef(), None)
  }

  /** `it_can_serialize`, as JSON values. */
  lemma FullFixtureJson()
    ensures ToJson(FullFixture()) == JObject([
      Member("title", JString("Test PR")),
      Member("description", JString("Test description")),
      Member("fromRef", RefJson("refs/heads/feature", "test-repo", "TEST")),
      Member("toRef", RefJson("refs/heads/main", "test-repo", "TEST")),
      Member("reviewers", JArray([JObject([Member("user", JObject([Member("name", JString("testuser"))]))])]))])
  {
    FullMembers(FullFixture());
    RefMembers(FeatureRef());
    RefMembers(MainRef());
    ReviewerMembers(Reviewer(User("testuser")));
    assert ReviewersToJson([Reviewer(User("testuser"))]).items == [ReviewerToJson(Reviewer(User("testuser")))];
  }

  /** `it_can_serialize_partially`, as JSON values. */
  lemma PartialFixtureJson()
    ensures ToJson(PartialFixture()) == JObject([
      Member("title", JString("Test PR")),
      Member("fromRef", RefJson("refs/heads/feature", "test-repo", "TEST")),
      Member("toRef", RefJson("refs/heads/main", "test-repo", "TEST"))])
  {
    BareMembers(PartialFixture());
    RefMembers(FeatureRef());
    RefMembers(MainRef());
  }

  /** `PullRequestPost`, the request `Api::pull_request_post` returns. */
  datatype PullRequestPost = PullRequestPost(
    client: Client.Client,
    projectKey: string,
    repositorySlug: string,
    pullRequest: PullRequestPostPayload)

  /** `Api::pull_request_post`: stores its arguments unchanged. */
  function NewPullRequestPost(client: Client.Client, projectKey: string, repositorySlug: string,
                              pullRequest: PullRequestPostPayload): (r: PullRequestPost)
    ensures RequestUri(r) == "api/latest/projects/" + projectKey + "/repos/" + repositorySlug + "/pull-requests"
    ensures r.client == client && r.pullRequest == pullRequest
  {
    PullRequestPost(client, projectKey, repositorySlug, pullRequest)
  }

  /** The path below the base URL: the project and repository, ending in
      `/pull-requests`. */
  function RequestUri(req: PullRequestPost): (u: string)
    ensures "api/latest/projects/" + req.projectKey + "/repos/" <= u
    ensures |u| >= 14 && u[|u| - 14..] == "/pull-requests"
  {
    var u := "api/latest/projects/" + req.projectKey + "/repos/" + req.repositorySlug + "/pull-requests";
    assert u[|u| - 14..] == "/pull-requests";
    u
  }

  /** The request `send` issues: a POST of the serialised payload to the
      pull-requests path of the repository. */
  function Request(req: PullRequestPost): (r: Client.HttpRequest)
    reads req.client
    ensures r.verb == Client.POST && r.query == map[]
    ensures r.url == req.client.basePath + "/" + RequestUri(req)
    ensures r.body == Some(Render(ToJson(req.pullRequest)))
    ensures Client.HeaderValue(r.headers, "Authorization") == Some("Bearer " + req.client.apiToken)
  {
    req.client.PostRequest(RequestUri(req), Render(ToJson(req.pullRequest)))
  }

  /** `Output = PullRequestPostPayload`: the created pull request. */
  function OutputDecoder(parse: string -> Result<Json, string>): (f: string -> Result<PullRequestPostPayload, string>)
    ensures forall text :: parse(text).Err? ==> f(text).Err?
    ensures forall text :: parse(text).Ok? ==> f(text) == FromJson(parse(text).value)
  {
    Serde.FromText(parse, FromJson)
  }

  /** `ApiRequest::send` for `PullRequestPost`. */
  method Send(req: PullRequestPost, parse: string -> Result<Json, string>)
    returns (r: Client.ApiResponse<PullRequestPostPayload>)
    ensures r == Client.Execute(req.client.httpClient(Request(req)), OutputDecoder(parse))
  {
    var uri := "api/latest/projects/" + req.projectKey + "/repos/" + req.repositorySlug + "/pull-requests";
    var body := Render(ToJson(req.pullRequest));
    r := req.client.Post(uri, body, OutputDecoder(parse));
  }

  /** A 201 Created whose body is a serialised payload gives that payload;
      an empty 2xx body is `Ok(None)`. */
  lemma SendResults(response: Client.Response, parse: string -> Result<Json, string>)
    requires Client.IsSuccess(response.status) && response.body.Text?
    ensures response.body.text == "" <==>
      Client.Execute(Client.Sent(response), OutputDecoder(parse)) == Ok(None)
    ensures forall p: PullRequestPostPayload | response.body.text != "" && parse(response.body.text) == Ok(ToJson(p)) ::
      Client.Execute(Client.Sent(response), OutputDecoder(parse)) == Ok(Some(p))
  {
    forall p: PullRequestPostPayload | response.body.text != "" && parse(response.body.text) == Ok(ToJson(p))
      ensures Client.Execute(Client.Sent(response), OutputDecoder(parse)) == Ok(Some(p))
    {
      RoundTrip(p);
    }
  }
}
