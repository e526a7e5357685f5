// The claim set of the superuser token the app facade mints
// (App.generateSuperuserJWT, src/app.ts:70-78). Signing is left abstract.

module Claims {

  /** Seconds of backdating, for clock skew at the server. */
  const Leeway := 30

  /** Seconds of validity after `now`: five minutes. */
  const Lifetime := 60 * 5

  datatype SuperuserClaims = SuperuserClaims(app: string, iss: string, su: bool, iat: int, exp: int)

  /** `Math.floor(Date.now() / 1000)`: a millisecond clock reading as whole seconds. */
  function EpochSeconds(millis: int): (seconds: int)
    ensures 1000 * seconds <= millis < 1000 * seconds + 1000
  {
    millis / 1000
  }

  /** The claims of a superuser token minted at `now` (epoch seconds). */
  function SuperuserClaimsAt(appId: string, appKeyId: string, now: int): (c: SuperuserClaims)
    ensures c.app == appId && c.iss == appKeyId && c.su
    ensures c.iat == now - 30 && c.exp == now + 300
    ensures c.exp - c.iat == 330 && c.iat < now < c.exp
  {
    SuperuserClaims(appId, appKeyId, true, now - Leeway, now + Lifetime)
  }
}
