/**
 * The endpoint functions of the client. Each maps its arguments to one call of
 * `_request` or `_request_paged`: a path (with user-supplied names passed
 * through `quote`), a method and a parameter dictionary. An endpoint is
 * modelled by the call it makes (`ApiCall`); what that call sends is
 * `BuildRequest` for a single request and `PagesOf` for a paged one, and the
 * lemmas below state the resulting HTTP requests.
 */
module ApiEndpoints {
  import opened Wrappers
  import opened PyDict
  import opened ApiRequest
  import opened PyInt
  import opened ApiPaging

  /** One `_request`, or one `_request_paged` with the default item processor. */
  datatype ApiCall =
    | Single(apiPath: string, httpMethod: Option<string>, params: Params)
    | Paged(apiPath: string, params: Params)

  /** `repos/{quote(owner)}/{quote(repository)}`. */
  function RepositoryPath(codec: Codec, owner: string, repository: string): string
  {
    "repos/" + codec.quote(owner) + "/" + codec.quote(repository)
  }

  /** `user_repository_list`. */
  function UserRepositoryList(repositoryType: string): ApiCall
  {
    Paged("user/repos", Set([], "type", Str(repositoryType)))
  }

  /** `organization_repository_list`. */
  function OrganizationRepositoryList(codec: Codec, organizationName: string, repositoryType: string): ApiCall
  {
    Paged("orgs/" + codec.quote(organizationName) + "/repos", Set([], "type", Str(repositoryType)))
  }

  /** `user_subscription_list`. */
  function UserSubscriptionList(): ApiCall
  {
    Paged("user/subscriptions", [])
  }

  /** `repository_subscription`. */
  function RepositorySubscription(codec: Codec, owner: string, repository: string): ApiCall
  {
    Single(RepositoryPath(codec, owner, repository) + "/subscription", None, [])
  }

  /** `set_user_repository_subscription`. */
  function SetUserRepositorySubscription(
    codec: Codec, owner: string, repository: string, subscribed: bool := false, ignored: bool := false): ApiCall
  {
    Single(
      RepositoryPath(codec, owner, repository) + "/subscription",
      Some("PUT"),
      Set(Set([], "subscribed", Bool(subscribed)), "ignored", Bool(ignored)))
  }

  /** `repository_webhook_list`: a single GET, not paged. */
  function RepositoryWebhookList(codec: Codec, owner: string, repository: string): ApiCall
  {
    Single(RepositoryPath(codec, owner, repository) + "/hooks", None, [])
  }

  /** The request a `Single` call sends with a token. */
  function SingleRequest(codec: Codec, authToken: string, call: ApiCall): HttpRequest
    requires call.Single?
  {
    BuildRequest(codec, Some(authToken), call.apiPath, call.httpMethod, call.params)
  }

  /** The request a `Paged` call sends for page `page` with a token. */
  function PageRequest(codec: Codec, authToken: string, call: ApiCall, page: nat): HttpRequest
    requires call.Paged?
  {
    BuildRequest(codec, Some(authToken), call.apiPath, None, PagedParams(call.params, page))
  }

  /** The query of page `page` of a repository list: `type`, `page` and `per_page`, in that order. */
  lemma RepositoryListQuery(repositoryType: string, page: nat)
    ensures var query := PagedParams(Set([], "type", Str(repositoryType)), page);
      && KeyOrder(query) == ["type", "page", "per_page"]
      && Get(query, "type") == Some(Str(repositoryType))
      && Get(query, "page") == Some(Str(NatToString(page)))
      && Get(query, "per_page") == Some(Str("20"))
  {
    var params := Set([], "type", Str(repositoryType));
    assert KeyOrder(params) == ["type"] && Keys(params) == {"type"};
  }

  /** Page `page` of a repository list is a GET of `path` whose query string encodes that query. */
  lemma RepositoryListPage(codec: Codec, authToken: string, path: string, repositoryType: string, page: nat)
    ensures var call := Paged(path, Set([], "type", Str(repositoryType)));
      var query := PagedParams(call.params, page);
      var r := PageRequest(codec, authToken, call, page);
      && r.url == ApiBaseUrl + "/" + path + "?" + codec.urlencode(query)
      && r.httpMethod.None? && r.data.None?
      && Get(r.headers, "Authorization") == Some("token " + authToken)
  {
    PageRequestIsQueryGet(codec, PagedQuery(authToken, path, Set([], "type", Str(repositoryType)), None), page);
  }

  /** `user_repository_list` pages through `user/repos` with the `type` filter. */
  lemma UserRepositoryListPage(codec: Codec, authToken: string, repositoryType: string, page: nat)
    ensures var call := UserRepositoryList(repositoryType);
      var query := PagedParams(call.params, page);
      var r := PageRequest(codec, authToken, call, page);
      && KeyOrder(query) == ["type", "page", "per_page"]
      && Get(query, "type") == Some(Str(repositoryType))
      && r.url == ApiBaseUrl + "/" + "user/repos" + "?" + codec.urlencode(query)
      && r.httpMethod.None? && r.data.None?
  {
    RepositoryListQuery(repositoryType, page);
    RepositoryListPage(codec, authToken, "user/repos", repositoryType, page);
  }

  /** `organization_repository_list` pages through the organisation's quoted `repos` path with the `type` filter. */
  lemma OrganizationRepositoryListPage(
    codec: Codec, authToken: string, organizationName: string, repositoryType: string, page: nat)
    ensures var call := OrganizationRepositoryList(codec, organizationName, repositoryType);
      var query := PagedParams(call.params, page);
      var r := PageRequest(codec, authToken, call, page);
      && KeyOrder(query) == ["type", "page", "per_page"]
      && Get(query, "type") == Some(Str(repositoryType))
      && r.url == ApiBaseUrl + "/" + ("orgs/" + codec.quote(organizationName) + "/repos") + "?" + codec.urlencode(query)
      && r.httpMethod.None? && r.data.None?
  {
    RepositoryListQuery(repositoryType, page);
    RepositoryListPage(codec, authToken, "orgs/" + codec.quote(organizationName) + "/repos", repositoryType, page);
  }

  /** `user_subscription_list` pages through `user/subscriptions` with only the paging parameters. */
  lemma UserSubscriptionListPage(codec: Codec, authToken: string, page: nat)
    ensures var call := UserSubscriptionList();
      var query := PagedParams(call.params, page);
      var r := PageRequest(codec, authToken, call, page);
      && KeyOrder(query) == ["page", "per_page"]
      && r.url == ApiBaseUrl + "/" + "user/subscriptions" + "?" + codec.urlencode(query)
      && r.httpMethod.None? && r.data.None?
  {
    PageRequestIsQueryGet(codec, PagedQuery(authToken, "user/subscriptions", [], None), page);
  }

  /** `repository_subscription` is a plain GET of the repository's `subscription` path: no query, no body. */
  lemma RepositorySubscriptionRequest(codec: Codec, authToken: string, owner: string, repository: string)
    ensures var r := SingleRequest(codec, authToken, RepositorySubscription(codec, owner, repository));
      && r.url == ApiBaseUrl + "/" + (RepositoryPath(codec, owner, repository) + "/subscription")
      && r.httpMethod.None? && r.data.None?
      && Get(r.headers, "Content-Type").None?
      && Get(r.headers, "Authorization") == Some("token " + authToken)
  {
  }

  /** `repository_webhook_list` is a single GET of the repository's `hooks` path, not paged. */
  lemma RepositoryWebhookListRequest(codec: Codec, authToken: string, owner: string, repository: string)
    ensures var r := SingleRequest(codec, authToken, RepositoryWebhookList(codec, owner, repository));
      && r.url == ApiBaseUrl + "/" + (RepositoryPath(codec, owner, repository) + "/hooks")
      && r.httpMethod.None? && r.data.None?
      && Get(r.headers, "Content-Type").None?
  {
  }

  /**
   * `set_user_repository_subscription` PUTs both flags, `subscribed` then
   * `ignored`, as a JSON body with its content type.
   */
  lemma SetUserRepositorySubscriptionRequest(
    codec: Codec, authToken: string, owner: string, repository: string, subscribed: bool, ignored: bool)
    ensures var call := SetUserRepositorySubscription(codec, owner, repository, subscribed, ignored);
      var r := SingleRequest(codec, authToken, call);
      && KeyOrder(call.params) == ["subscribed", "ignored"]
      && Get(call.params, "subscribed") == Some(Bool(subscribed))
      && Get(call.params, "ignored") == Some(Bool(ignored))
      && r.httpMethod == Some("PUT")
      && r.url == ApiBaseUrl + "/" + (RepositoryPath(codec, owner, repository) + "/subscription")
      && r.data == Some(codec.jsonDumps(call.params))
      && Get(r.headers, "Content-Type") == Some(RequestDataContentType)
  {
    var call := SetUserRepositorySubscription(codec, owner, repository, subscribed, ignored);
    assert "subscribed" in Keys(call.params);
  }

  /** The optional arguments of `update_repository_properties`; `None` leaves a property unchanged. */
  datatype RepositoryChanges = RepositoryChanges(
    defaultBranch: Option<string>,
    description: Option<string>,
    homepage: Option<string>,
    issues: Option<string>,
    isPrivate: Option<string>,
    projects: Option<bool>,
    wiki: Option<bool>)

  /** A string argument as the value it is sent as, `None` when it is not given. */
  function StrValue(s: Option<string>): Option<Value>
  {
    if s.Some? then Some(Str(s.value)) else None
  }

  /** A boolean argument as the value it is sent as, `None` when it is not given. */
  function BoolValue(b: Option<bool>): Option<Value>
  {
    if b.Some? then Some(Bool(b.value)) else None
  }

  /** `{key}` when the argument is given, `{}` when it is not. */
  function KeyIf(given: bool, key: string): set<string>
  {
    if given then {key} else {}
  }

  /**
   * The closure `add_property(param, key)`: the patch with `param` stored
   * under `key`, or unchanged when `param` is `None`.
   */
  function AddProperty(patch: Params, param: Option<Value>, key: string): (r: Params)
    ensures Keys(r) == Keys(patch) + KeyIf(param.Some?, key)
    ensures Get(r, key) == if param.Some? then param else Get(patch, key)
    ensures forall k :: k != key ==> Get(r, k) == Get(patch, k)
    ensures KeyOrder(r) == if param.Some? && key !in Keys(patch) then KeyOrder(patch) + [key] else KeyOrder(patch)
  {
    if param.Some? then Set(patch, key, param.value) else patch
  }

  /**
   * The body `update_repository_properties` builds: `name`, then each
   * optional argument in turn; `issues`, `projects` and `wiki` are sent as
   * `has_issues`, `has_projects` and `has_wiki`.
   */
  function PatchCollection(repository: string, changes: RepositoryChanges): Params
  {
    var patch := Set([], "name", Str(repository));
    var patch := AddProperty(patch, StrValue(changes.defaultBranch), "default_branch");
    var patch := AddProperty(patch, StrValue(changes.description), "description");
    var patch := AddProperty(patch, StrValue(changes.homepage), "homepage");
    var patch := AddProperty(patch, StrValue(changes.issues), "has_issues");
    var patch := AddProperty(patch, StrValue(changes.isPrivate), "private");
    var patch := AddProperty(patch, BoolValue(changes.projects), "has_projects");
    AddProperty(patch, BoolValue(changes.wiki), "has_wiki")
  }

  /** The keys of the patch body: `name` and the key of every given argument. */
  function PatchKeys(changes: RepositoryChanges): set<string>
  {
    {"name"} + KeyIf(changes.defaultBranch.Some?, "default_branch") + KeyIf(changes.description.Some?, "description")
    + KeyIf(changes.homepage.Some?, "homepage") + KeyIf(changes.issues.Some?, "has_issues")
    + KeyIf(changes.isPrivate.Some?, "private") + KeyIf(changes.projects.Some?, "has_projects")
    + KeyIf(changes.wiki.Some?, "has_wiki")
  }

  /** The body holds exactly `name` and the keys of the given arguments: no absent argument appears. */
  lemma PatchCollectionKeys(repository: string, changes: RepositoryChanges)
    ensures Keys(PatchCollection(repository, changes)) == PatchKeys(changes)
  {
    assert Keys(Set([], "name", Str(repository))) == {"name"};
  }

  /** Adding a property leaves every other key as it was. */
  lemma AddPropertyOther(patch: Params, param: Option<Value>, key: string, k: string)
    requires k != key
    ensures Get(AddProperty(patch, param, key), k) == Get(patch, k)
  {
  }

  /** `name` always holds the repository. */
  lemma PatchName(repository: string, changes: RepositoryChanges)
    ensures Get(PatchCollection(repository, changes), "name") == Some(Str(repository))
  {
    var k := "name";
    var p0 := Set([], "name", Str(repository));
    var p1 := AddProperty(p0, StrValue(changes.defaultBranch), "default_branch");
    var p2 := AddProperty(p1, StrValue(changes.description), "description");
    var p3 := AddProperty(p2, StrValue(changes.homepage), "homepage");
    var p4 := AddProperty(p3, StrValue(changes.issues), "has_issues");
    var p5 := AddProperty(p4, StrValue(changes.isPrivate), "private");
    var p6 := AddProperty(p5, BoolValue(changes.projects), "has_projects");
    var p7 := AddProperty(p6, BoolValue(changes.wiki), "has_wiki");
    AddPropertyOther(p0, StrValue(changes.defaultBranch), "default_branch", k);
    AddPropertyOther(p1, StrValue(changes.description), "description", k);
    AddPropertyOther(p2, StrValue(changes.homepage), "homepage", k);
    AddPropertyOther(p3, StrValue(changes.issues), "has_issues", k);
    AddPropertyOther(p4, StrValue(changes.isPrivate), "private", k);
    AddPropertyOther(p5, BoolValue(changes.projects), "has_projects", k);
    AddPropertyOther(p6, BoolValue(changes.wiki), "has_wiki", k);
  }

  /** `default_branch` holds the default branch when it is given and is absent otherwise. */
  lemma PatchDefaultBranch(repository: string, changes: RepositoryChanges)
    ensures Get(PatchCollection(repository, changes), "default_branch") == StrValue(changes.defaultBranch)
  {
    var k := "default_branch";
    var p0 := Set([], "name", Str(repository));
    var p1 := AddProperty(p0, StrValue(changes.defaultBranch), "default_branch");
    var p2 := AddProperty(p1, StrValue(changes.description), "description");
    var p3 := AddProperty(p2, StrValue(changes.homepage), "homepage");
    var p4 := AddProperty(p3, StrValue(changes.issues), "has_issues");
    var p5 := AddProperty(p4, StrValue(changes.isPrivate), "private");
    var p6 := AddProperty(p5, BoolValue(changes.projects), "has_projects");
    var p7 := AddProperty(p6, BoolValue(changes.wiki), "has_wiki");
    assert Get(p0, k) == None;
    AddPropertyOther(p1, StrValue(changes.description), "description", k);
    AddPropertyOther(p2, StrValue(changes.homepage), "homepage", k);
    AddPropertyOther(p3, StrValue(changes.issues), "has_issues", k);
    AddPropertyOther(p4, StrValue(changes.isPrivate), "private", k);
    AddPropertyOther(p5, BoolValue(changes.projects), "has_projects", k);
    AddPropertyOther(p6, BoolValue(changes.wiki), "has_wiki", k);
  }

  /** `description` holds the description when it is given and is absent otherwise. */
  lemma PatchDescription(repository: string, changes: RepositoryChanges)
    ensures Get(PatchCollection(repository, changes), "description") == StrValue(changes.description)
  {
    var k := "description";
    var p0 := Set([], "name", Str(repository));
    var p1 := AddProperty(p0, StrValue(changes.defaultBranch), "default_branch");
    var p2 := AddProperty(p1, StrValue(changes.description), "description");
    var p3 := AddProperty(p2, StrValue(changes.homepage), "homepage");
    var p4 := AddProperty(p3, StrValue(changes.issues), "has_issues");
    var p5 := AddProperty(p4, StrValue(changes.isPrivate), "private");
    var p6 := AddProperty(p5, BoolValue(changes.projects), "has_projects");
    var p7 := AddProperty(p6, BoolValue(changes.wiki), "has_wiki");
    assert Get(p0, k) == None;
    AddPropertyOther(p0, StrValue(changes.defaultBranch), "default_branch", k);
    AddPropertyOther(p2, StrValue(changes.homepage), "homepage", k);
    AddPropertyOther(p3, StrValue(changes.issues), "has_issues", k);
    AddPropertyOther(p4, StrValue(changes.isPrivate), "private", k);
    AddPropertyOther(p5, BoolValue(changes.projects), "has_projects", k);
    AddPropertyOther(p6, BoolValue(changes.wiki), "has_wiki", k);
  }

  /** `homepage` holds the homepage when it is given and is absent otherwise. */
  lemma PatchHomepage(repository: string, changes: RepositoryChanges)
    ensures Get(PatchCollection(repository, changes), "homepage") == StrValue(changes.homepage)
  {
    var k := "homepage";
    var p0 := Set([], "name", Str(repository));
    var p1 := AddProperty(p0, StrValue(changes.defaultBranch), "default_branch");
    var p2 := AddProperty(p1, StrValue(changes.description), "description");
    var p3 := AddProperty(p2, StrValue(changes.homepage), "homepage");
    var p4 := AddProperty(p3, StrValue(changes.issues), "has_issues");
    var p5 := AddProperty(p4, StrValue(changes.isPrivate), "private");
    var p6 := AddProperty(p5, BoolValue(changes.projects), "has_projects");
    var p7 := AddProperty(p6, BoolValue(changes.wiki), "has_wiki");
    assert Get(p0, k) == None;
    AddPropertyOther(p0, StrValue(changes.defaultBranch), "default_branch", k);
    AddPropertyOther(p1, StrValue(changes.description), "description", k);
    AddPropertyOther(p3, StrValue(changes.issues), "has_issues", k);
    AddPropertyOther(p4, StrValue(changes.isPrivate), "private", k);
    AddPropertyOther(p5, BoolValue(changes.projects), "has_projects", k);
    AddPropertyOther(p6, BoolValue(changes.wiki), "has_wiki", k);
  }

  /** `issues` is sent as `has_issues` when it is given and is absent otherwise. */
  lemma PatchIssues(repository: string, changes: RepositoryChanges)
    ensures Get(PatchCollection(repository, changes), "has_issues") == StrValue(changes.issues)
  {
    var k := "has_issues";
    var p0 := Set([], "name", Str(repository));
    var p1 := AddProperty(p0, StrValue(changes.defaultBranch), "default_branch");
    var p2 := AddProperty(p1, StrValue(changes.description), "description");
    var p3 := AddProperty(p2, StrValue(changes.homepage), "homepage");
    var p4 := AddProperty(p3, StrValue(changes.issues), "has_issues");
    var p5 := AddProperty(p4, StrValue(changes.isPrivate), "private");
    var p6 := AddProperty(p5, BoolValue(changes.projects), "has_projects");
    var p7 := AddProperty(p6, BoolValue(changes.wiki), "has_wiki");
    assert Get(p0, k) == None;
    AddPropertyOther(p0, StrValue(changes.defaultBranch), "default_branch", k);
    AddPropertyOther(p1, StrValue(changes.description), "description", k);
    AddPropertyOther(p2, StrValue(changes.homepage), "homepage", k);
    AddPropertyOther(p4, StrValue(changes.isPrivate), "private", k);
    AddPropertyOther(p5, BoolValue(changes.projects), "has_projects", k);
    AddPropertyOther(p6, BoolValue(changes.wiki), "has_wiki", k);
  }

  /** `private` holds the visibility when it is given and is absent otherwise. */
  lemma PatchPrivate(repository: string, changes: RepositoryChanges)
    ensures Get(PatchCollection(repository, changes), "private") == StrValue(changes.isPrivate)
  {
    var k := "private";
    var p0 := Set([], "name", Str(repository));
    var p1 := AddProperty(p0, StrValue(changes.defaultBranch), "default_branch");
    var p2 := AddProperty(p1, StrValue(changes.description), "description");
    var p3 := AddProperty(p2, StrValue(changes.homepage), "homepage");
    var p4 := AddProperty(p3, StrValue(changes.issues), "has_issues");
    var p5 := AddProperty(p4, StrValue(changes.isPrivate), "private");
    var p6 := AddProperty(p5, BoolValue(changes.projects), "has_projects");
    var p7 := AddProperty(p6, BoolValue(changes.wiki), "has_wiki");
    assert Get(p0, k) == None;
    AddPropertyOther(p0, StrValue(changes.defaultBranch), "default_branch", k);
    AddPropertyOther(p1, StrValue(changes.description), "description", k);
    AddPropertyOther(p2, StrValue(changes.homepage), "homepage", k);
    AddPropertyOther(p3, StrValue(changes.issues), "has_issues", k);
    AddPropertyOther(p5, BoolValue(changes.projects), "has_projects", k);
    AddPropertyOther(p6, BoolValue(changes.wiki), "has_wiki", k);
  }

  /** `projects` is sent as `has_projects` when it is given and is absent otherwise. */
  lemma PatchProjects(repository: string, changes: RepositoryChanges)
    ensures Get(PatchCollection(repository, changes), "has_projects") == BoolValue(changes.projects)
  {
    var k := "has_projects";
    var p0 := Set([], "name", Str(repository));
    var p1 := AddProperty(p0, StrValue(changes.defaultBranch), "default_branch");
    var p2 := AddProperty(p1, StrValue(changes.description), "description");
    var p3 := AddProperty(p2, StrValue(changes.homepage), "homepage");
    var p4 := AddProperty(p3, StrValue(changes.issues), "has_issues");
    var p5 := AddProperty(p4, StrValue(changes.isPrivate), "private");
    var p6 := AddProperty(p5, BoolValue(changes.projects), "has_projects");
    var p7 := AddProperty(p6, BoolValue(changes.wiki), "has_wiki");
    assert Get(p0, k) == None;
    AddPropertyOther(p0, StrValue(changes.defaultBranch), "default_branch", k);
    AddPropertyOther(p1, StrValue(changes.description), "description", k);
    AddPropertyOther(p2, StrValue(changes.homepage), "homepage", k);
    AddPropertyOther(p3, StrValue(changes.issues), "has_issues", k);
    AddPropertyOther(p4, StrValue(changes.isPrivate), "private", k);
    AddPropertyOther(p6, BoolValue(changes.wiki), "has_wiki", k);
  }

  /** `wiki` is sent as `has_wiki` when it is given and is absent otherwise. */
  lemma PatchWiki(repository: string, changes: RepositoryChanges)
    ensures Get(PatchCollection(repository, changes), "has_wiki") == BoolValue(changes.wiki)
  {
    var k := "has_wiki";
    var p0 := Set([], "name", Str(repository));
    var p1 := AddProperty(p0, StrValue(changes.defaultBranch), "default_branch");
    var p2 := AddProperty(p1, StrValue(changes.description), "description");
    var p3 := AddProperty(p2, StrValue(changes.homepage), "homepage");
    var p4 := AddProperty(p3, StrValue(changes.issues), "has_issues");
    var p5 := AddProperty(p4, StrValue(changes.isPrivate), "private");
    var p6 := AddProperty(p5, BoolValue(changes.projects), "has_projects");
    var p7 := AddProperty(p6, BoolValue(changes.wiki), "has_wiki");
    assert Get(p0, k) == None;
    AddPropertyOther(p0, StrValue(changes.defaultBranch), "default_branch", k);
    AddPropertyOther(p1, StrValue(changes.description), "description", k);
    AddPropertyOther(p2, StrValue(changes.homepage), "homepage", k);
    AddPropertyOther(p3, StrValue(changes.issues), "has_issues", k);
    AddPropertyOther(p4, StrValue(changes.isPrivate), "private", k);
    AddPropertyOther(p5, BoolValue(changes.projects), "has_projects", k);
  }

  /**
   * `update_repository_properties`: a PATCH of the repository whose body
   * holds `name` and exactly the given properties, each with its value.
   */
  method UpdateRepositoryProperties(
    codec: Codec, owner: string, repository: string, changes: RepositoryChanges) returns (call: ApiCall)
    ensures call.Single? && call.httpMethod == Some("PATCH")
    ensures call.apiPath == RepositoryPath(codec, owner, repository)
    ensures call.params == PatchCollection(repository, changes)
    ensures Keys(call.params) == PatchKeys(changes)
    ensures Get(call.params, "name") == Some(Str(repository))
    ensures Get(call.params, "default_branch") == StrValue(changes.defaultBranch)
    ensures Get(call.params, "description") == StrValue(changes.description)
    ensures Get(call.params, "homepage") == StrValue(changes.homepage)
    ensures Get(call.params, "has_issues") == StrValue(changes.issues)
    ensures Get(call.params, "private") == StrValue(changes.isPrivate)
    ensures Get(call.params, "has_projects") == BoolValue(changes.projects)
    ensures Get(call.params, "has_wiki") == BoolValue(changes.wiki)
  {
    var patchCollection := Set([], "name", Str(repository));
    patchCollection := AddProperty(patchCollection, StrValue(changes.defaultBranch), "default_branch");
    patchCollection := AddProperty(patchCollection, StrValue(changes.description), "description");
    patchCollection := AddProperty(patchCollection, StrValue(changes.homepage), "homepage");
    patchCollection := AddProperty(patchCollection, StrValue(changes.issues), "has_issues");
    patchCollection := AddProperty(patchCollection, StrValue(changes.isPrivate), "private");
    patchCollection := AddProperty(patchCollection, BoolValue(changes.projects), "has_projects");
    patchCollection := AddProperty(patchCollection, BoolValue(changes.wiki), "has_wiki");
    PatchCollectionKeys(repository, changes);
    PatchName(repository, changes);
    PatchDefaultBranch(repository, changes);
    PatchDescription(repository, changes);
    PatchHomepage(repository, changes);
    PatchIssues(repository, changes);
    PatchPrivate(repository, changes);
    PatchProjects(repository, changes);
    PatchWiki(repository, changes);
    call := Single(RepositoryPath(codec, owner, repository), Some("PATCH"), patchCollection);
  }

  /** The update is a PATCH of the repository path whose JSON body always exists, since it holds at least `name`. */
  lemma UpdateRepositoryPropertiesRequest(
    codec: Codec, authToken: string, owner: string, repository: string, changes: RepositoryChanges)
    ensures var body := PatchCollection(repository, changes);
      var r := BuildRequest(codec, Some(authToken), RepositoryPath(codec, owner, repository), Some("PATCH"), body);
      && r.httpMethod == Some("PATCH")
      && r.url == ApiBaseUrl + "/" + RepositoryPath(codec, owner, repository)
      && r.data == Some(codec.jsonDumps(body))
      && Get(r.headers, "Content-Type") == Some(RequestDataContentType)
  {
    PatchCollectionKeys(repository, changes);
    assert "name" in Keys(PatchCollection(repository, changes));
  }
}
