// The app facade (class App, src/app.ts): bound to one tenant, it scopes
// every request path under "apps/{appId}", adds a superuser token when the
// caller gave none, and delegates to the transport client.

module Tenant {
  import opened Common
  import opened Status
  import opened Transport
  import opened AppKey
  import opened PathScope
  import opened Claims

  /** The prefix `request` scopes every path under. */
  const AppsPrefix := "apps"

  class App {
    const client: BaseClient
    const appId: string
    const appKeyId: string
    const appKeySecret: string

    constructor (appId: string, key: KeyParts, client: BaseClient)
      ensures this.appId == appId && appKeyId == key.id && appKeySecret == key.secret
      ensures this.client == client
    {
      this.appId := appId;
      this.appKeyId := key.id;
      this.appKeySecret := key.secret;
      this.client := client;
    }

    /**
     * `new App(options)`: the app key is split first; a key that does not
     * match throws "Invalid app key" and no app is built.
     */
    static method New(appId: string, appKey: string, client: BaseClient) returns (r: Result<App, string>)
      ensures ParseAppKey(appKey).Err? ==> r == Err(InvalidAppKey)
      ensures ParseAppKey(appKey).Ok? ==>
        && r.Ok? && fresh(r.value)
        && r.value.appId == appId && r.value.client == client
        && MatchesKeyPattern(appKey, r.value.appKeyId, r.value.appKeySecret)
    {
      var parsed := ParseAppKey(appKey);
      match parsed {
        case Err(e) =>
          r := Err(e);
        case Ok(key) =>
          var app := new App(appId, key, client);
          r := Ok(app);
      }
    }

    /** The signed superuser token for a clock reading of `nowMillis`; `sign` stands for `jwt.sign`. */
    function GenerateSuperuserJwt(nowMillis: int, sign: (SuperuserClaims, string) -> string): string
    {
      sign(SuperuserClaimsAt(appId, appKeyId, EpochSeconds(nowMillis)), appKeySecret)
    }

    /**
     * `scopeRequestOptions`: `extend` writes the scoped path into the
     * caller's object and returns that same object.
     */
    method ScopeRequestOptions(prefix: string, options: RequestOptions) returns (scoped: RequestOptions)
      modifies options
      ensures scoped == options
      ensures options.path == ScopePath(prefix, appId, old(options.path))
      ensures options.httpMethod == old(options.httpMethod) && options.jwt == old(options.jwt)
      ensures options.headers == old(options.headers) && options.body == old(options.body)
    {
      options.path := ScopePath(prefix, appId, options.path);
      scoped := options;
    }

    /**
     * `request`: scope, add a superuser token when `jwt` is null or
     * undefined, then hand the same options object to the client once.
     */
    method Request(options: RequestOptions, nowMillis: int, sign: (SuperuserClaims, string) -> string,
                   exchange: Exchange, parse: string -> Option<ErrorBody>)
      returns (sent: Outgoing, outcome: Outcome)
      modifies options, client.sdkInfo
      ensures options.path == ScopePath(AppsPrefix, appId, old(options.path))
      ensures options.httpMethod == old(options.httpMethod)
      ensures options.headers == old(options.headers) && options.body == old(options.body)
      ensures old(options.jwt).Some? ==> options.jwt == old(options.jwt)
      ensures old(options.jwt).None? ==> options.jwt == Some(GenerateSuperuserJwt(nowMillis, sign))
      ensures client.sdkInfo.headers == MergeHeaders(old(client.sdkInfo.headers), options.headers, options.jwt)
      ensures old(options.jwt).None? && GenerateSuperuserJwt(nowMillis, sign) != "" ==>
        client.sdkInfo.headers["Authorization"] == "Bearer " + GenerateSuperuserJwt(nowMillis, sign)
      ensures sent == Outgoing(client.host, client.port,
                               ServicePath(client.serviceName, client.serviceVersion, client.instanceId, options.path),
                               options.httpMethod, client.sdkInfo.headers, options.body)
      ensures outcome == Classify(exchange, parse)
    {
      var scoped := ScopeRequestOptions(AppsPrefix, options);
      if scoped.jwt.None? {
        scoped.jwt := Some(GenerateSuperuserJwt(nowMillis, sign));
      }
      sent, outcome := client.Request(scoped, exchange, parse);
    }
  }
}
