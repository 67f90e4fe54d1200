/** The authentication facade: every operation is a POST under "/auth". */
module AuthApi {
  import opened Common
  import opened Js
  import Client
  import opened Base

  datatype LoginCredentials = LoginCredentials(email: string, password: string)
  datatype RegisterCredentials = RegisterCredentials(email: string, password: string, name: string)
  datatype AuthTokens = AuthTokens(accessToken: string, refreshToken: string, expiresIn: int)
  datatype Role = Admin | User
  datatype AuthUser = AuthUser(id: string, email: string, name: string, role: Role)
  datatype AuthResponse = AuthResponse(user: AuthUser, tokens: AuthTokens)

  const Service := BaseApi("/auth")

  /** The JSON object a credentials record is sent as. */
  function EncodeLogin(c: LoginCredentials): (j: Json)
    ensures j.JObject? && j.fields.Keys == {"email", "password"}
    ensures j.fields["email"] == JString(c.email) && j.fields["password"] == JString(c.password)
  {
    JObject(map["email" := JString(c.email), "password" := JString(c.password)])
  }

  /** The same, with the display name added. */
  function EncodeRegister(c: RegisterCredentials): (j: Json)
    ensures j.JObject? && j.fields.Keys == {"email", "password", "name"}
    ensures j.fields["email"] == JString(c.email) && j.fields["password"] == JString(c.password)
    ensures j.fields["name"] == JString(c.name)
  {
    JObject(map["email" := JString(c.email), "password" := JString(c.password), "name" := JString(c.name)])
  }

  function Login(c: LoginCredentials): (r: Client.Request)
    ensures r == Client.Request(Client.POST, "/auth/login", Some(EncodeLogin(c)), None)
  {
    Client.Post(Url(Service, "/login"), Some(EncodeLogin(c)))
  }

  function Register(c: RegisterCredentials): (r: Client.Request)
    ensures r == Client.Request(Client.POST, "/auth/register", Some(EncodeRegister(c)), None)
  {
    Client.Post(Url(Service, "/register"), Some(EncodeRegister(c)))
  }

  function Logout(): (r: Client.Request)
    ensures r == Client.Request(Client.POST, "/auth/logout", None, None)
  {
    Client.Post(Url(Service, "/logout"))
  }

  function RefreshToken(refreshToken: string): (r: Client.Request)
    ensures r == Client.Request(Client.POST, "/auth/refresh",
                                Some(JObject(map["refreshToken" := JString(refreshToken)])), None)
  {
    Client.Post(Url(Service, "/refresh"), Some(JObject(map["refreshToken" := JString(refreshToken)])))
  }

  function ForgotPassword(email: string): (r: Client.Request)
    ensures r == Client.Request(Client.POST, "/auth/forgot-password",
                                Some(JObject(map["email" := JString(email)])), None)
  {
    Client.Post(Url(Service, "/forgot-password"), Some(JObject(map["email" := JString(email)])))
  }

  function ResetPassword(token: string, password: string): (r: Client.Request)
    ensures r == Client.Request(Client.POST, "/auth/reset-password",
                                Some(JObject(map["token" := JString(token), "password" := JString(password)])), None)
  {
    Client.Post(Url(Service, "/reset-password"),
                Some(JObject(map["token" := JString(token), "password" := JString(password)])))
  }

  /** One value per facade operation, with its arguments. */
  datatype Operation =
    | LoginOp(login: LoginCredentials)
    | RegisterOp(register: RegisterCredentials)
    | LogoutOp
    | RefreshTokenOp(refreshToken: string)
    | ForgotPasswordOp(email: string)
    | ResetPasswordOp(token: string, password: string)

  /** The request each operation makes. */
  function Describe(op: Operation): (r: Client.Request)
    ensures r.verb == Client.POST
    ensures Service.basePath <= r.url && |r.url| > |Service.basePath|
    ensures r.params.None?
    ensures r.data.None? <==> op.LogoutOp?
  {
    match op
    case LoginOp(c) => Login(c)
    case RegisterOp(c) => Register(c)
    case LogoutOp => Logout()
    case RefreshTokenOp(t) => RefreshToken(t)
    case ForgotPasswordOp(e) => ForgotPassword(e)
    case ResetPasswordOp(t, p) => ResetPassword(t, p)
  }

  /** Different kinds of operation go to different endpoints, so the url
      alone tells the server which operation was asked for. */
  lemma DistinctEndpoints(a: Operation, b: Operation)
    requires Describe(a).url == Describe(b).url
    ensures a.LoginOp? == b.LoginOp? && a.RegisterOp? == b.RegisterOp?
    ensures a.LogoutOp? == b.LogoutOp? && a.RefreshTokenOp? == b.RefreshTokenOp?
    ensures a.ForgotPasswordOp? == b.ForgotPasswordOp? && a.ResetPasswordOp? == b.ResetPasswordOp?
  {
  }
}
