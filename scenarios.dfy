// Consequences that span several operations: the path a tenant request
// reaches, the shared SDK header map across requests, and what happens
// when one options object is used for two requests.

module Scenarios {
  import opened Common
  import opened PathSanitizer
  import opened Status
  import opened Transport
  import opened PathScope
  import opened Tenant
  import opened Claims

  lemma ScopePathSpaceFree(prefix: string, appId: string, path: string)
    requires ' ' !in prefix && ' ' !in appId && ' ' !in path
    ensures ' ' !in ScopePath(prefix, appId, path)
  {
    var full := "/" + prefix + "/" + appId + "/" + path;
    assert ' ' !in full;
    CollapseSpaceFree(full);
    var c := CollapseSlashes(full);
    var p := DropTrailingSlashes(c);
    assert forall i :: 0 <= i < |p| ==> p[i] == c[i];
  }

  /**
   * A tenant request reaches the service prefix followed by the scoped path,
   * and the scoped path starts with "/apps/".
   */
  lemma TenantRequestPath(serviceName: string, serviceVersion: string, instanceId: string,
                          appId: string, path: string)
    requires IsPlainSegment(serviceName) && IsPlainSegment(serviceVersion) && IsPlainSegment(instanceId)
    requires appId != [] && appId[0] != '/' && ' ' !in appId && ' ' !in path
    ensures var scoped := ScopePath(AppsPrefix, appId, path);
      && |scoped| > 6 && scoped[..6] == "/apps/"
      && ServicePath(serviceName, serviceVersion, instanceId, scoped)
         == "services/" + serviceName + "/" + serviceVersion + "/" + instanceId + scoped
  {
    var scoped := ScopePath(AppsPrefix, appId, path);
    ScopePathUnderPrefix(AppsPrefix, appId, path);
    AppsHead();
    ScopePathIsClean(AppsPrefix, appId, path);
    ScopePathSpaceFree(AppsPrefix, appId, path);
    ServicePathOfCleanPath(serviceName, serviceVersion, instanceId, scoped);
  }

  lemma AppsHead()
    ensures "/" + AppsPrefix + "/" == "/apps/"
    ensures AppsPrefix != [] && '/' !in AppsPrefix && IsPlainSegment(AppsPrefix)
  {
  }

  /**
   * A tenant request for a clean relative path reaches
   * "services/{svc}/{ver}/{inst}/apps/{appId}/" followed by that path.
   */
  lemma TenantRequestOfCleanPath(serviceName: string, serviceVersion: string, instanceId: string,
                                 appId: string, path: string)
    requires IsPlainSegment(serviceName) && IsPlainSegment(serviceVersion) && IsPlainSegment(instanceId)
    requires IsPlainSegment(appId)
    requires path != [] && path[0] != '/' && ' ' !in path && NoDoubleSlash(path) && !EndsWithSlash(path)
    ensures ServicePath(serviceName, serviceVersion, instanceId, ScopePath(AppsPrefix, appId, path))
         == "services/" + serviceName + "/" + serviceVersion + "/" + instanceId
            + "/" + AppsPrefix + "/" + appId + "/" + path
  {
    AppsHead();
    ScopeOfCleanPath(AppsPrefix, appId, path);
    ScopePathIsClean(AppsPrefix, appId, path);
    ScopePathSpaceFree(AppsPrefix, appId, path);
    var scoped := "/" + AppsPrefix + "/" + appId + "/" + path;
    ServicePathOfCleanPath(serviceName, serviceVersion, instanceId, scoped);
    JoinSegments("services/" + serviceName + "/" + serviceVersion + "/" + instanceId, AppsPrefix, appId, path);
  }

  lemma JoinSegments(x: string, p: string, a: string, q: string)
    ensures x + ("/" + p + "/" + a + "/" + q) == x + "/" + p + "/" + a + "/" + q
  {
  }

  /**
   * The merge writes into the SDK's own header map, so a later request
   * starts from the headers of the earlier one: no key is ever removed, and
   * a bearer token stays in force for a request whose jwt is missing or
   * empty and whose caller headers do not set Authorization.
   */
  lemma SharedHeadersPersist(sdk: Headers, caller1: Option<Headers>, jwt1: Option<string>,
                             caller2: Option<Headers>, jwt2: Option<string>)
    ensures var after1 := MergeHeaders(sdk, caller1, jwt1);
      var after2 := MergeHeaders(after1, caller2, jwt2);
      && sdk.Keys <= after1.Keys <= after2.Keys
      && (Truthy(jwt1) && !Truthy(jwt2) && (caller2.None? || "Authorization" !in caller2.value) ==>
            after2["Authorization"] == "Bearer " + jwt1.value)
  {
  }

  /** Scoping an already scoped path puts the tenant prefix in front a second time. */
  lemma ScopeTwice(appId: string, path: string)
    requires appId != [] && '/' !in appId
    requires path != [] && path[0] != '/' && NoDoubleSlash(path) && !EndsWithSlash(path)
    ensures ScopePath(AppsPrefix, appId, ScopePath(AppsPrefix, appId, path))
         == "/" + AppsPrefix + "/" + appId + "/" + AppsPrefix + "/" + appId + "/" + path
  {
    AppsHead();
    SegmentIsClean(AppsPrefix);
    SegmentIsClean(appId);
    JoinPaths(appId, path);
    JoinPaths(AppsPrefix, appId + "/" + path);
    var rest := AppsPrefix + "/" + (appId + "/" + path);
    ScopeOfCleanPath(AppsPrefix, appId, path);
    assert ScopePath(AppsPrefix, appId, path) == "/" + rest by {
      ConcatAssoc("/" + AppsPrefix + "/", appId + "/", path);
      ConcatAssoc("/" + AppsPrefix + "/", appId, "/");
      ConcatAssoc("/", AppsPrefix + "/", appId + "/" + path);
      ConcatAssoc("/", AppsPrefix, "/");
    }
    ScopeIgnoresLeadingSlash(AppsPrefix, appId, rest);
    ScopeOfCleanPath(AppsPrefix, appId, rest);
    var head := "/" + AppsPrefix + "/" + appId + "/";
    ConcatAssoc(head, AppsPrefix + "/", appId + "/" + path);
    ConcatAssoc(head, AppsPrefix, "/");
    ConcatAssoc(head + AppsPrefix + "/", appId + "/", path);
    ConcatAssoc(head + AppsPrefix + "/", appId, "/");
  }

  /**
   * Using one options object for two requests: the first request rewrote
   * its path and stored its token in it, so the second scopes the path a
   * second time and reuses the first token instead of minting a new one.
   */
  method RequestTwice(app: App, options: RequestOptions, firstMillis: int, secondMillis: int,
                      sign: (SuperuserClaims, string) -> string,
                      exchange: Exchange, parse: string -> Option<ErrorBody>)
    returns (first: Outgoing, second: Outgoing)
    requires app.appId != [] && '/' !in app.appId && options.jwt.None?
    requires options.path != [] && options.path[0] != '/'
    requires NoDoubleSlash(options.path) && !EndsWithSlash(options.path)
    modifies options, app.client.sdkInfo
    ensures options.path == "/" + AppsPrefix + "/" + app.appId + "/" + AppsPrefix + "/" + app.appId
                            + "/" + old(options.path)
    ensures options.jwt == Some(app.GenerateSuperuserJwt(firstMillis, sign))
    ensures second.path == ServicePath(app.client.serviceName, app.client.serviceVersion,
                                       app.client.instanceId, options.path)
  {
    ScopeTwice(app.appId, options.path);
    var outcome;
    first, outcome := app.Request(options, firstMillis, sign, exchange, parse);
    second, outcome := app.Request(options, secondMillis, sign, exchange, parse);
  }
}
