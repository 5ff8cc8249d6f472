/** The values the grant layer receives from its surroundings: the osin
    authorize request, the authenticated user, the registered client, the
    HTTP request and response writer, and the `Grant` snapshot it builds. */
module Types {

  /** Go's `int32` and `int64`. */
  newtype int32 = x: int | -0x8000_0000 <= x < 0x8000_0000
  newtype int64 = x: int | -0x8000_0000_0000_0000 <= x < 0x8000_0000_0000_0000

  /** The `user.Info` of an authenticated user. */
  datatype User = User(name: string, uid: string, groups: seq<string>)

  /** What the request's untyped `UserData` slot may hold: a `user.Info`, or
      something that is not one (including an empty slot). A successful
      assertion to the interface `user.Info` never yields a nil interface, so
      the source's extra nil test cannot fire and needs no case of its own. */
  datatype UserData = UserInfo(info: User) | NotUserInfo

  /** What a client's untyped user data may hold: the registry's
      `OAuthClient` record, with its configured grant method ("" when unset),
      or anything else. */
  datatype ClientData = OAuthClient(grantMethod: string) | OtherClientData

  /** An `osin.Client`: its `GetId()` and its `GetUserData()`. */
  datatype Client = Client(id: string, userData: ClientData)

  /** The inbound `*http.Request`, reduced to what is used: `URL.String()`. */
  datatype HttpRequest = HttpRequest(url: string)

  /** A parsed URL, split into its raw query and everything else. */
  datatype Url = Url(withoutQuery: string, rawQuery: string)

  /** A redirect target: `withoutQuery` with its query set to the encoding of
      `query` (the encoding itself is not modelled). */
  datatype Location = Location(withoutQuery: string, query: map<string, seq<string>>)

  /** `api.Grant`: the client, scope, expiry and redirect target of one
      authorization attempt. */
  datatype Grant = Grant(client: Client, scope: string, expiration: int64, redirectUri: string)

  /** `osin.AuthorizeRequest`. Only `authorized` is changed by the grant layer;
      the other fields are read-only here. */
  class AuthorizeRequest {
    var authorized: bool
    const userData: UserData
    const client: Client
    const scope: string
    const expiration: int32
    const redirectUri: string
    const httpRequest: HttpRequest

    constructor (authorized: bool, userData: UserData, client: Client, scope: string,
                 expiration: int32, redirectUri: string, httpRequest: HttpRequest)
      ensures this.authorized == authorized && this.userData == userData
      ensures this.client == client && this.scope == scope && this.expiration == expiration
      ensures this.redirectUri == redirectUri && this.httpRequest == httpRequest
    {
      this.authorized := authorized;
      this.userData := userData;
      this.client := client;
      this.scope := scope;
      this.expiration := expiration;
      this.redirectUri := redirectUri;
      this.httpRequest := httpRequest;
    }
  }

  /** `http.ResponseWriter`, seen only through the redirects written to it. */
  class ResponseWriter {
    ghost var redirects: seq<Location>

    constructor ()
      ensures redirects == []
    {
      redirects := [];
    }
  }
}
