/** The user-management facade: operations under "/users", most of them on
    "/users/" followed by an id. */
module UserApi {
  import opened Common
  import opened Js
  import Client
  import opened Base

  datatype CreateUserDto = CreateUserDto(email: string, name: string, password: string)
  /** Both fields optional: an absent one is left out of the body. */
  datatype UpdateUserDto = UpdateUserDto(name: Option<string>, avatar: Option<string>)
  datatype PageParams = PageParams(page: Option<int>, limit: Option<int>)

  const Service := BaseApi("/users")

  /** The JSON object a new user is sent as: all three fields. */
  function EncodeCreate(d: CreateUserDto): (j: Json)
    ensures j.JObject? && j.fields.Keys == {"email", "name", "password"}
    ensures j.fields["email"] == JString(d.email) && j.fields["name"] == JString(d.name)
    ensures j.fields["password"] == JString(d.password)
  {
    JObject(map["email" := JString(d.email), "name" := JString(d.name), "password" := JString(d.password)])
  }

  /** The JSON object of an update: only the fields that are present. */
  function EncodeUpdate(d: UpdateUserDto): (j: Json)
    ensures j.JObject?
    ensures "name" in j.fields <==> d.name.Some?
    ensures "avatar" in j.fields <==> d.avatar.Some?
    ensures d.name.Some? ==> j.fields["name"] == JString(d.name.value)
    ensures d.avatar.Some? ==> j.fields["avatar"] == JString(d.avatar.value)
    ensures j.fields.Keys <= {"name", "avatar"}
  {
    var withName: map<string, Json> := if d.name.Some? then map["name" := JString(d.name.value)] else map[];
    JObject(if d.avatar.Some? then withName["avatar" := JString(d.avatar.value)] else withName)
  }

  /** The query parameters object: only the fields that are present. */
  function EncodePage(p: PageParams): (j: Json)
    ensures j.JObject?
    ensures "page" in j.fields <==> p.page.Some?
    ensures "limit" in j.fields <==> p.limit.Some?
    ensures p.page.Some? ==> j.fields["page"] == JNumber(p.page.value)
    ensures p.limit.Some? ==> j.fields["limit"] == JNumber(p.limit.value)
    ensures j.fields.Keys <= {"page", "limit"}
  {
    var withPage: map<string, Json> := if p.page.Some? then map["page" := JNumber(p.page.value)] else map[];
    JObject(if p.limit.Some? then withPage["limit" := JNumber(p.limit.value)] else withPage)
  }

  function GetProfile(): (r: Client.Request)
    ensures r == Client.Request(Client.GET, "/users/profile", None, None)
  {
    Client.Get(Url(Service, "/profile"))
  }

  function GetById(id: string): (r: Client.Request)
    ensures r == Client.Request(Client.GET, "/users/" + id, None, None)
  {
    Client.Get(Url(Service, "/" + id))
  }

  function GetAll(params: Option<PageParams> := None): (r: Client.Request)
    ensures r.verb == Client.GET && r.url == "/users" && r.data.None?
    ensures r.params.Some? <==> params.Some?
    ensures params.Some? ==> r.params.value == EncodePage(params.value)
  {
    Client.Get(Url(Service), if params.Some? then Some(EncodePage(params.value)) else None)
  }

  function Create(d: CreateUserDto): (r: Client.Request)
    ensures r == Client.Request(Client.POST, "/users", Some(EncodeCreate(d)), None)
  {
    Client.Post(Url(Service), Some(EncodeCreate(d)))
  }

  function Update(id: string, d: UpdateUserDto): (r: Client.Request)
    ensures r == Client.Request(Client.PATCH, "/users/" + id, Some(EncodeUpdate(d)), None)
  {
    Client.Patch(Url(Service, "/" + id), Some(EncodeUpdate(d)))
  }

  function Delete(id: string): (r: Client.Request)
    ensures r == Client.Request(Client.DELETE, "/users/" + id, None, None)
  {
    Client.Delete(Url(Service, "/" + id))
  }

  /** A user whose id is "profile" cannot be fetched by id: the request is
      the profile request. */
  lemma ProfileShadowsId()
    ensures GetById("profile") == GetProfile()
  {
  }

  datatype Operation =
    | GetProfileOp
    | GetByIdOp(id: string)
    | GetAllOp(params: Option<PageParams>)
    | CreateOp(create: CreateUserDto)
    | UpdateOp(updateId: string, update: UpdateUserDto)
    | DeleteOp(deleteId: string)

  /** The request each operation makes; reads carry no body and only the
      listing carries query parameters. */
  function Describe(op: Operation): (r: Client.Request)
    ensures Service.basePath <= r.url
    ensures r.verb == Client.GET <==> op.GetProfileOp? || op.GetByIdOp? || op.GetAllOp?
    ensures r.verb == Client.GET ==> r.data.None?
    ensures r.params.Some? ==> op.GetAllOp?
    ensures r.data.Some? <==> op.CreateOp? || op.UpdateOp?
  {
    match op
    case GetProfileOp => GetProfile()
    case GetByIdOp(id) => GetById(id)
    case GetAllOp(p) => GetAll(p)
    case CreateOp(d) => Create(d)
    case UpdateOp(id, d) => Update(id, d)
    case DeleteOp(id) => Delete(id)
  }

  /** The id-addressed operations all target the same url for one id, and
      differ only in verb and body. */
  lemma SameResourcePerId(id: string, d: UpdateUserDto)
    ensures GetById(id).url == Update(id, d).url == Delete(id).url == Url(Service, "/" + id)
    ensures GetById(id).verb == Client.GET && Update(id, d).verb == Client.PATCH && Delete(id).verb == Client.DELETE
  {
  }
}
