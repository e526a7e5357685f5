# Elements request pipeline, modelled in Dafny

This project models the request pipeline of the Node.js SDK for the Elements
platform (pusher-platform-nodejs). The SDK has two classes.

- `BaseClient` (src/base_client.ts) addresses one versioned service instance.
  It writes the caller's headers and bearer token into the SDK's header map,
  builds the cleaned URL path `services/{name}/{version}/{instance}/{path}`,
  sends the request, and turns the response into a success or one error.
- `App` (src/app.ts) is bound to one tenant. Its constructor splits the app
  key `id:secret`. Every request path is scoped under `/apps/{appId}`. A
  superuser token is minted and attached when the caller gave no `jwt`, and
  the request is then handed to the client.

The modules follow the source:

| module | file | what it holds |
|---|---|---|
| `Common` | common.dfy | `Option`, `Result`, `Headers`, and the `RequestOptions` class (src/common.ts) |
| `PathSanitizer` | path_sanitizer.dfy | the four `replace` passes of `sanitizePath`, and lemmas about slashes |
| `Decimal` | decimal.dfy | how a status code is written into a message (`${statusCode}`), and how to read it back |
| `Status` | status.dfy | the response classification and its result type |
| `Transport` | base_client.dfy | the shared `SdkInfo` header map, the `BaseClient` class, and the header merge |
| `AppKey` | app_key.dfy | app-key parsing, as the regular expression `^([^:]+):(.+)$` |
| `PathScope` | scope.dfy | tenant scoping of paths |
| `Claims` | claims.dfy | the superuser claim set, and conversion of the clock to seconds |
| `Tenant` | app.dfy | the `App` class |
| `Scenarios` | scenarios.dfy | consequences that span several operations |

Parts of the source change state in place, and those parts are imperative in
the model.

- `BaseClient.request` does not copy the SDK header map. Its `headers`
  variable is `this.sdkInfo.headers`, so the `for` loop and the
  `Authorization` assignment write into that shared map.
  `Transport.BaseClient.Request` does this too. The loop is
  `Transport.BaseClient.CopyCallerHeaders`, and its invariant is the part
  of the caller's map copied so far. The contract of `Request` ties the new
  shared map to `Transport.MergeHeaders` of the old one. One consequence is proved in
  `Scenarios.SharedHeadersPersist`: headers from one request stay in the map
  for later requests. A bearer token set by one request is still sent by a
  later request whose `jwt` is missing or `""`, unless that request's own
  headers set `Authorization`: caller headers overwrite it.
- `extend` writes the scoped path, and later the token, into the caller's
  options object. `RequestOptions` is therefore a class. `Tenant.App.Request`
  states the object's new fields. `Scenarios.RequestTwice` shows what happens
  when one options object is used for two requests. The second request scopes
  the path a second time (`users/42` of app `A1` becomes
  `/apps/A1/apps/A1/users/42`). It also reuses the
  first token.

Pure parts are modelled as functions, with lemmas about them. These are the
path passes, the status classification, app-key parsing and the claims.

Things the model takes as inputs:

- The transport library's answer is an `Exchange` input: a transport error,
  or a status code, headers and body.
- `JSON.parse` is a function parameter `parse` that returns `None` when
  parsing throws.
- `jwt.sign` is a function parameter `sign`.
- `Date.now()` is a millisecond reading `nowMillis`.

Behaviour of the code that the model keeps:

- **Key parsing.** Key parsing rejects a key with no colon, an empty id, an
  empty secret, or a secret that contains `\n`, `\r`, U+2028 or U+2029.
  JS `.` does not match those characters. `[^:]` does, so an id may contain
  line terminators, and a secret may contain further colons.
- **Authorization header.** The client sets `Authorization` only for a
  truthy `jwt`, so a `jwt` of `""` sets none. The app facade mints a token
  only when `jwt` is `null` or `undefined`, so `""` also stops the facade
  from minting one.
- **Header merge.** The merge writes into the SDK's shared header map; no
  new map is built.
- **Scoped paths.** Scoping (src/app.ts:61-63) leaves spaces alone and drops
  the whole trailing run of slashes. Spaces are handled only by the client's
  `sanitizePath`. The scoped path keeps its leading slash: `users//42/` of
  app `A1` scopes to `/apps/A1/users/42`.
- **Error fields.** A 4xx/5xx error whose body does not parse carries no
  `headers`; one whose body parses carries the response headers. The code
  passes one object literal to `new ErrorResponse(...)`. The class declared
  in src/common.ts:7-14 takes three parameters, so at run time that literal
  becomes its `statusCode` field. The model records the literal's fields,
  `Status.ErrorInfo`.

## Model

| member | source | states |
|---|---|---|
| `PathSanitizer.ReplaceSlashSpace` | src/base_client.ts:116 | the first pass never lengthens the path and leaves a path without spaces unchanged; ReplaceKeepsNonSpaces (only spaces are removed, every other character stays in order), ReplaceSlashSpaceAt (each matched "/ " becomes "/", whatever precedes it) and ReplaceKeepsOtherSpace (a space not right after a slash stays) say which spaces it removes |
| `PathSanitizer.ReplaceKeepsNonSpaces` | src/base_client.ts:116 | the first pass removes spaces and nothing else: the characters other than spaces stay, in order |
| `PathSanitizer.ReplaceSlashSpaceAt` | src/base_client.ts:116 | for every prefix a and rest b, a + "/ " + b becomes the first pass of a, then "/", then the first pass of b: the space after a slash is removed |
| `PathSanitizer.ReplaceKeepsOtherSpace` | src/base_client.ts:116 | for every a that is empty or does not end in "/", and every b, a + " " + b becomes the first pass of a, then " ", then the first pass of b: a space not right after a slash survives |
| `PathSanitizer.DropTrailingSpace` | src/base_client.ts:117 | the second pass removes at most one final space, and changes the path exactly when it ends in a space |
| `PathSanitizer.CollapseSlashRuns` | src/base_client.ts:118 | the third pass keeps the first character and never lengthens the path |
| `PathSanitizer.CollapseNoDoubleSlash` | src/base_client.ts:118 | after the third pass no two slashes are adjacent |
| `PathSanitizer.CollapseIdentity` | src/base_client.ts:118 | the third pass leaves a path without doubled slashes unchanged |
| `PathSanitizer.CollapseKeepsContent` | src/base_client.ts:118 | the third pass removes slashes only: the other characters stay, in order |
| `PathSanitizer.CollapseSpaceFree` | src/base_client.ts:118 | the third pass introduces no space |
| `PathSanitizer.CollapseAppend` | src/base_client.ts:118 | collapsing distributes over concatenation when the left part ends in a non-slash, since no run straddles the joint |
| `PathSanitizer.DropTrailingSlash` | src/base_client.ts:119 | the fourth pass drops the final slash exactly when the path ends in one, and changes nothing else; on a path without doubled slashes the result has none and does not end in a slash |
| `PathSanitizer.SanitizePath` | src/base_client.ts:114-120 | the four passes in source order; its contract says only that a cleaned path is never longer than the input; its properties are in SanitizeIsClean, SanitizeWithoutSpaces and SanitizeIdempotent, and those of each pass in the rows above |
| `PathSanitizer.SanitizeIsClean` | src/base_client.ts:114-120 | a sanitised path never contains "//" and never ends with "/" |
| `PathSanitizer.SanitizeWithoutSpaces` | src/base_client.ts:114-120 | on a path without spaces, sanitising is collapsing slash runs and then dropping one trailing slash, and the result has no spaces |
| `PathSanitizer.SanitizeIdempotent` | src/base_client.ts:114-120 | on a path without spaces, sanitising twice is sanitising once |
| `Decimal.IntToString` | src/base_client.ts:82 | the `${statusCode}` text is never empty and starts with a digit for a non-negative code and with "-" for a negative one; the round trip is IntToStringRoundTrip |
| `Decimal.IntToStringRoundTrip` | src/base_client.ts:82 | the decimal text of a status code is all digits (after an optional minus) and parses back to the code |
| `Decimal.IntToStringInjective` | src/base_client.ts:106 | different codes are written as different text |
| `Status.RedirectMessage` | src/base_client.ts:82 | no contract; the redirect rejection text; its shape and the code it carries are stated by MessagesCarryCode |
| `Status.UnsupportedMessage` | src/base_client.ts:106 | no contract; the unsupported-code rejection text; its shape and the code it carries are stated by MessagesCarryCode |
| `Status.ErrorResponseFor` | src/base_client.ts:85-104 | unparsable body: error is the fixed "could not parse" message, description "", no error_uri and no headers, status N; parsed body: error, error_description and error_uri are copied from it, with the response headers and status N |
| `Status.Classify` | src/base_client.ts:71-107 | a transport error is passed on unchanged; 200..299 succeed with the body attached verbatim; 300..399 reject with "Unsupported Redirect Response: N"; 400..599 reject with the ErrorResponse fields; every other code rejects with "Unsupported Response Code: N"; each case happens exactly when its range holds |
| `Status.MessagesCarryCode` | src/base_client.ts:81-106 | both rejection messages are their fixed prefix followed by the code's decimal text, from which the code is recovered |
| `Status.RejectionsDistinguishCodes` | src/base_client.ts:75-107 | two responses with different codes, the first not a 2xx, never yield the same rejection |
| `Transport.SdkInfo.constructor` | src/base_client.ts:42 | the SDK information object holds the given header map, which every request of every client sharing it writes into |
| `Transport.MergeHeaders` | src/base_client.ts:42-51 | the merged keys are the SDK keys, the caller keys and, for a truthy jwt, "Authorization"; a truthy jwt sets "Bearer " + jwt over any caller value; every other key has the caller's value if the caller set it and the SDK value otherwise |
| `Transport.ServicePath` | src/base_client.ts:53 | no contract; "services/{name}/{version}/{instance}/" + path, cleaned by SanitizePath; its shape for clean paths is ServicePathOfCleanPath, and its cleanness is SanitizeIsClean |
| `Transport.ServicePathOfCleanPath` | src/base_client.ts:53 | for service name, version and instance that are each a plain name (non-empty, no "/" and no space), and a path without spaces that begins with a slash, has no "//" and does not end in "/", the URL path is "services/{name}/{version}/{instance}" followed by that path |
| `Transport.BaseClient.constructor` | src/base_client.ts:27-34 | the client holds exactly the given host, port, service coordinates and SDK info |
| `Transport.BaseClient.CopyCallerHeaders` | src/base_client.ts:44-48 | after the loop the shared SDK map is its old contents overridden by every caller header, and nothing else in it changed |
| `Transport.BaseClient.Request` | src/base_client.ts:41-108 | the shared SDK map becomes the merge of its old value with the caller headers and jwt; the request goes out with the sanitised service path, the caller's method and body, and the merged map; the outcome is the classification of the exchange |
| `AppKey.ParseAppKey` | src/app.ts:28-33 | a refusal carries "Invalid app key"; a success yields an id and a secret that match the pattern and whose join with ":" is the key |
| `AppKey.ParseAppKeyExact` | src/app.ts:28-33 | parsing yields id and secret exactly when the key is id + ":" + secret, the id is non-empty without ":", and the secret is non-empty without line terminators (so it may contain ":") |
| `AppKey.ParseAppKeyRejects` | src/app.ts:28-31 | a key is refused exactly when no id and secret match it |
| `AppKey.MalformedKeysRejected` | src/app.ts:28-31 | a key is refused when it has no colon, when it starts with a colon, or when its only colon is its last character |
| `PathScope.CollapseSlashes` | src/app.ts:62 | `/\/+/g` gives the same result as the client's `/[\/]{2,}/g` |
| `PathScope.DropTrailingSlashes` | src/app.ts:63 | the result does not end in a slash, is a prefix of the input, and only slashes were removed |
| `PathScope.ScopePath` | src/app.ts:61-63 | no contract; "/" + prefix + "/" + appId + "/" + path, slash runs collapsed, trailing slashes dropped; its properties are in ScopePathIsClean, ScopePathUnderPrefix, ScopePathUnderPrefixWhenContent, ScopeOfCleanPath and ScopeIgnoresLeadingSlash |
| `PathScope.ScopePathIsClean` | src/app.ts:61-63 | a scoped path has no "//", no trailing "/", and starts with "/" unless it is empty |
| `PathScope.ScopePathUnderPrefix` | src/app.ts:61-63 | for a non-empty prefix without slashes and a non-empty app id that does not begin with a slash, the scoped path is "/" + prefix + "/" followed by a non-empty rest whose first character is the app id's first character |
| `PathScope.ScopePathUnderPrefixWhenContent` | src/app.ts:61-63 | for a non-empty prefix without slashes, whenever the app id and path hold any character other than a slash, the scoped path is "/" + prefix + "/" followed by a non-empty rest that does not start with a slash (the app id and path with leading slashes skipped, slash runs collapsed and trailing slashes dropped) |
| `PathScope.ScopeOfCleanPath` | src/app.ts:61-63 | for a non-empty slash-free prefix, an app id that is non-empty and has no "/" (spaces are allowed: scoping ignores them), and a clean relative path (non-empty, not starting or ending with "/", no "//"), the scoped path is exactly "/" + prefix + "/" + appId + "/" + path |
| `PathScope.ScopeIgnoresLeadingSlash` | src/app.ts:61-63 | for a non-empty app id that does not end in "/", and a path that is empty or does not start with "/", one extra leading slash on the path makes no difference |
| `Claims.EpochSeconds` | src/app.ts:71 | the seconds value is the floor of the millisecond reading divided by 1000 |
| `Claims.SuperuserClaimsAt` | src/app.ts:72-78 | app is the app id, iss the key id, su true, iat = now - 30 and exp = now + 300; hence exp - iat = 330 and iat < now < exp |
| `Common.RequestOptions.constructor` | src/common.ts:16-22 | a request-options object holds exactly the given method, path, jwt, headers and body; later requests may rewrite it in place |
| `Tenant.App.constructor` | src/app.ts:26-33 | the app holds the given app id, key id, key secret and client |
| `Tenant.App.New` | src/app.ts:25-42 | a key that does not parse gives "Invalid app key" and no app; otherwise a fresh app has the given app id and client, and key id and secret that match the key pattern |
| `Tenant.App.GenerateSuperuserJwt` | src/app.ts:70-80 | no contract; `sign` applied to SuperuserClaimsAt of the app id, key id and EpochSeconds of the clock, with the key secret; the claims are stated by SuperuserClaimsAt and EpochSeconds |
| `Tenant.App.ScopeRequestOptions` | src/app.ts:60-68 | the caller's own options object is returned; its path becomes the scoped path; method, jwt, headers and body are unchanged |
| `Tenant.App.Request` | src/app.ts:44-50 | the path is scoped first; a caller jwt that is not null, even "", is kept; a missing jwt becomes exactly one superuser token signed with the key secret; the client is called once with the scoped options, and the outgoing request and outcome are the client's; a minted token that is not empty ends up as "Authorization: Bearer " + token in the shared header map |
| `Scenarios.TenantRequestPath` | src/app.ts:45-49 | for service name, version and instance that are each a plain name (non-empty, no "/" and no space), an app id that is non-empty, has no space and does not start with "/", and a path without spaces, the URL path is "services/{svc}/{ver}/{inst}" followed by the scoped path, and the scoped path starts with "/apps/" |
| `Scenarios.TenantRequestOfCleanPath` | src/app.ts:44-49 | for service coordinates and an app id that are each a plain name (non-empty, no "/" and no space), and a clean relative path (non-empty, not starting or ending with "/", no "//") without spaces, the URL path is exactly "services/{svc}/{ver}/{inst}/apps/{appId}/" followed by that path |
| `Scenarios.SharedHeadersPersist` | src/base_client.ts:42-51 | because the merge writes into the shared map, no header is ever removed across requests, and a bearer token stays in force for a later request with a missing or empty jwt whose caller headers do not set Authorization |
| `Scenarios.ScopeTwice` | src/app.ts:61-63 | for an app id that is non-empty and has no "/" (spaces are allowed: scoping ignores them) and a clean relative path (non-empty, not starting or ending with "/", no "//"), scoping the scoped path again puts "/apps/{appId}" in front a second time |
| `Scenarios.RequestTwice` | src/app.ts:44-67 | for an app id that is non-empty and has no "/" (spaces are allowed: scoping ignores them), a clean relative path (non-empty, not starting or ending with "/", no "//") and no jwt: after two requests with one options object the path is scoped twice ("/apps/{appId}/apps/{appId}/" + path), the second request goes to that doubled path, and the token stays the one minted for the first request |

## Left out

- HTTPS transport (`request`, keep-alive, `qs`, `useQuerystring`, src/base_client.ts:62-70): this is I/O. The response is the `Exchange` input.
- `url.format` (src/base_client.ts:55-60): a library call. The model stops at the host, port and cleaned path that are handed to it.
- `JSON.stringify` of the body (src/base_client.ts:64): a library call. The outgoing request carries the caller's body value.
- `JSON.parse` (src/base_client.ts:89): a library call, modelled as the `parse` parameter. A body that parses to a non-object, or to an object without those members, is covered: `parse` then gives `ErrorBody(None, None, None)`, since every member reads as `undefined`. The model does not cover a body that parses to `null`, which makes the destructuring throw inside the callback. It also does not cover members whose JSON values are not strings; `ErrorBody` holds strings only.
- `jwt.sign` and token verification (src/app.ts:79): signature maths done by a library. `sign` is a parameter. `Tenant.App.GenerateSuperuserJwt` therefore has no contract of its own; its claims are specified by `Claims.SuperuserClaimsAt`. The sign-then-verify round trip is not modelled.
- `Date.now()` (src/app.ts:71): the clock is the `nowMillis` parameter.
- Promises: resolve and reject are the `Outcome` datatype.
- `authenticate` and `generateAccessToken` (src/app.ts:52-58): they delegate to `./authenticator`, and src/authenticator.ts is not part of this model. The construction of the authenticator (src/app.ts:39-41) is left out for the same reason.
- `./sdk_info`: it is not part of this model. Its `headers` are the initial contents of `Transport.SdkInfo`.
- The default client `new BaseClient({ host: options.cluster })` (src/app.ts:35-37): it passes only `host` and leaves `sdkInfo` undefined. `Tenant.App.New` takes the client as a parameter.
- Status codes that are not integers are not modelled. The transport library gives integer codes.
