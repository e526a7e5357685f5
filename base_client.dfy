// The transport client (class BaseClient, src/base_client.ts): it addresses
// one versioned service instance, writes the caller's headers and bearer
// token into the SDK's header map, sends, and classifies the response.

module Transport {
  import opened Common
  import opened PathSanitizer
  import opened Status

  /**
   * The SDK metadata object. Its header map is shared: the client writes the
   * per-request headers into it in place (src/base_client.ts:42-51).
   */
  class SdkInfo {
    var headers: Headers

    constructor (headers: Headers)
      ensures this.headers == headers
    {
      this.headers := headers;
    }
  }

  datatype BaseClientOptions = BaseClientOptions(
    host: string,
    port: int,
    serviceName: string,
    serviceVersion: string,
    instanceId: string,
    sdkInfo: SdkInfo)

  /** What the client hands to the HTTPS library for one request. */
  datatype Outgoing = Outgoing(
    host: string,
    port: int,
    path: string,
    httpMethod: string,
    headers: Headers,
    body: Option<string>)

  /**
   * The header map after a request's merge: SDK headers, overridden by the
   * caller's, overridden by a bearer token when the jwt is truthy.
   */
  function MergeHeaders(sdk: Headers, caller: Option<Headers>, jwt: Option<string>): (r: Headers)
    ensures r.Keys == sdk.Keys + (if caller.Some? then caller.value.Keys else {})
                     + (if Truthy(jwt) then {"Authorization"} else {})
    ensures Truthy(jwt) ==> r["Authorization"] == "Bearer " + jwt.value
    ensures forall k :: k in r && !(Truthy(jwt) && k == "Authorization") ==>
      r[k] == if caller.Some? && k in caller.value then caller.value[k] else sdk[k]
  {
    var merged := if caller.Some? then sdk + caller.value else sdk;
    if Truthy(jwt) then merged["Authorization" := "Bearer " + jwt.value] else merged
  }

  /** The merge as the source performs it: the caller's keys first, then the token. */
  lemma MergeHeadersSteps(sdk: Headers, caller: Option<Headers>, jwt: Option<string>)
    ensures var merged := if caller.Some? then sdk + caller.value else sdk;
      MergeHeaders(sdk, caller, jwt)
      == if Truthy(jwt) then merged["Authorization" := "Bearer " + jwt.value] else merged
  {
  }

  /** The SDK map after the `for` loop has copied the caller keys in `done`. */
  ghost function CopiedSoFar(sdk: Headers, caller: Headers, done: set<string>): Headers
    requires done <= caller.Keys
  {
    sdk + map k | k in done :: caller[k]
  }

  /** Copying one more caller key extends the copied set by that key. */
  lemma CopyOneMore(sdk: Headers, caller: Headers, done: set<string>, key: string)
    requires done <= caller.Keys && key in caller && key !in done
    ensures CopiedSoFar(sdk, caller, done)[key := caller[key]] == CopiedSoFar(sdk, caller, done + {key})
  {
  }

  /** Once every caller key is copied, the map is the SDK map overridden by the caller's. */
  lemma CopiedAll(sdk: Headers, caller: Headers)
    ensures CopiedSoFar(sdk, caller, caller.Keys) == sdk + caller
  {
  }

  /** The URL path of a request: the service prefix and the caller's path, cleaned up. */
  function ServicePath(serviceName: string, serviceVersion: string, instanceId: string, path: string): string
  {
    SanitizePath("services/" + serviceName + "/" + serviceVersion + "/" + instanceId + "/" + path)
  }

  /** The service prefix "services/{name}/{version}/{instance}" is clean and ends in a non-slash. */
  lemma ServicePrefixIsClean(serviceName: string, serviceVersion: string, instanceId: string)
    requires IsPlainSegment(serviceName) && IsPlainSegment(serviceVersion) && IsPlainSegment(instanceId)
    ensures var prefix := "services/" + serviceName + "/" + serviceVersion + "/" + instanceId;
      NoDoubleSlash(prefix) && !EndsWithSlash(prefix) && ' ' !in prefix
  {
    assert NoDoubleSlash("services");
    SegmentIsClean(serviceName);
    SegmentIsClean(serviceVersion);
    SegmentIsClean(instanceId);
    JoinPaths("services", serviceName);
    JoinPaths("services/" + serviceName, serviceVersion);
    JoinPaths("services/" + serviceName + "/" + serviceVersion, instanceId);
  }

  /**
   * For plain service coordinates and a path that is already clean and
   * starts with a slash, the URL path is the service prefix followed by the
   * path, with the doubled slash at the junction collapsed.
   */
  lemma ServicePathOfCleanPath(serviceName: string, serviceVersion: string, instanceId: string, path: string)
    requires IsPlainSegment(serviceName) && IsPlainSegment(serviceVersion) && IsPlainSegment(instanceId)
    requires path != [] && path[0] == '/' && ' ' !in path
    requires NoDoubleSlash(path) && !EndsWithSlash(path)
    ensures ServicePath(serviceName, serviceVersion, instanceId, path)
         == "services/" + serviceName + "/" + serviceVersion + "/" + instanceId + path
  {
    var prefix := "services/" + serviceName + "/" + serviceVersion + "/" + instanceId;
    ServicePrefixIsClean(serviceName, serviceVersion, instanceId);
    var full := prefix + "/" + path;
    assert ' ' !in full;
    SanitizeWithoutSpaces(full);
    CollapseJoin(prefix, path);
    assert !EndsWithSlash(prefix + path);
  }

  class BaseClient {
    const host: string
    const port: int
    const serviceName: string
    const serviceVersion: string
    const instanceId: string
    const sdkInfo: SdkInfo

    constructor (options: BaseClientOptions)
      ensures host == options.host && port == options.port
      ensures serviceName == options.serviceName && serviceVersion == options.serviceVersion
      ensures instanceId == options.instanceId && sdkInfo == options.sdkInfo
    {
      host := options.host;
      port := options.port;
      serviceName := options.serviceName;
      serviceVersion := options.serviceVersion;
      instanceId := options.instanceId;
      sdkInfo := options.sdkInfo;
    }

    /** The `for` loop over the caller's headers, writing each into the shared SDK map. */
    method CopyCallerHeaders(caller: Headers)
      modifies sdkInfo
      ensures sdkInfo.headers == old(sdkInfo.headers) + caller
    {
      var pending, done := caller.Keys, {};
      while pending != {}
        invariant pending + done == caller.Keys && pending !! done
        invariant sdkInfo.headers == CopiedSoFar(old(sdkInfo.headers), caller, done)
        decreases pending
      {
        var key :| key in pending;
        CopyOneMore(old(sdkInfo.headers), caller, done, key);
        sdkInfo.headers := sdkInfo.headers[key := caller[key]];
        pending, done := pending - {key}, done + {key};
      }
      CopiedAll(old(sdkInfo.headers), caller);
    }

    /**
     * One request. The transport library's answer is the input `exchange`
     * and `JSON.parse` is the input `parse`. The merge happens in the shared
     * SDK header map, which keeps the merged headers afterwards.
     */
    method Request(options: RequestOptions, exchange: Exchange, parse: string -> Option<ErrorBody>)
      returns (sent: Outgoing, outcome: Outcome)
      modifies sdkInfo
      ensures sdkInfo.headers == MergeHeaders(old(sdkInfo.headers), options.headers, options.jwt)
      ensures sent == Outgoing(host, port, ServicePath(serviceName, serviceVersion, instanceId, options.path),
                               options.httpMethod, sdkInfo.headers, options.body)
      ensures outcome == Classify(exchange, parse)
    {
      // `headers` is `this.sdkInfo.headers` itself, so every write lands there.
      if options.headers.Some? {
        CopyCallerHeaders(options.headers.value);
      }
      if Truthy(options.jwt) {
        sdkInfo.headers := sdkInfo.headers["Authorization" := "Bearer " + options.jwt.value];
      }
      MergeHeadersSteps(old(sdkInfo.headers), options.headers, options.jwt);
      var path := ServicePath(serviceName, serviceVersion, instanceId, options.path);
      sent := Outgoing(host, port, path, options.httpMethod, sdkInfo.headers, options.body);
      outcome := Classify(exchange, parse);
    }
  }
}
