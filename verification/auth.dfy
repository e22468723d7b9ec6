/** The shared bearer-token cache. A token is fetched from the credential
    when there is none, when its expiry is unknown, or when the clock has
    reached the expiry; the expiry kept is the credential's `expires_on`
    five minutes early. Times are whole seconds. */
module Auth {
  import opened Common

  /** Five minutes, in seconds. */
  const SafetyMargin: int := 300

  /** What the credential hands back for the management scope. */
  datatype TokenResponse = TokenResponse(token: string, expiresOn: int)

  /** The refresh test of `get_token`. */
  predicate NeedsRefresh(token: Option<string>, expiry: Option<int>, now: int) {
    token.None? || expiry.None? || now >= expiry.value
  }

  /** The cache after one `get_token` at time `now`, when the credential
      would answer `response`, together with the token returned. */
  datatype CacheState = CacheState(token: Option<string>, expiry: Option<int>)

  function Step(c: CacheState, now: int, response: TokenResponse): (r: (CacheState, string))
    ensures NeedsRefresh(c.token, c.expiry, now) ==>
      r.0 == CacheState(Some(response.token), Some(response.expiresOn - SafetyMargin)) && r.1 == response.token
    ensures !NeedsRefresh(c.token, c.expiry, now) ==> r.0 == c && r.1 == c.token.value
    ensures r.0.token == Some(r.1)
  {
    if NeedsRefresh(c.token, c.expiry, now) then
      (CacheState(Some(response.token), Some(response.expiresOn - SafetyMargin)), response.token)
    else
      (c, c.token.value)
  }

  /** A fresh token is served from the cache, whatever the credential would
      say, until five minutes before the credential's expiry; from then on
      the next call fetches again. */
  lemma CachedUntilMargin(c: CacheState, now: int, response: TokenResponse, later: int, next: TokenResponse)
    requires NeedsRefresh(c.token, c.expiry, now)
    ensures later < response.expiresOn - SafetyMargin ==>
      Step(Step(c, now, response).0, later, next) == Step(c, now, response)
    ensures later >= response.expiresOn - SafetyMargin ==>
      Step(Step(c, now, response).0, later, next).1 == next.token
  {
  }

  /** Two calls in a row at the same time fetch at most once. */
  lemma StepIdempotent(c: CacheState, now: int, response: TokenResponse, again: TokenResponse)
    requires response.expiresOn - SafetyMargin > now
    ensures Step(Step(c, now, response).0, now, again) == Step(c, now, response)
  {
  }

  /** `AzureAuthentication`: the credential itself is outside the model; a
      call to it is counted in `credentialCalls`, and its answer is passed
      in. */
  class AzureAuthentication {
    var authMethod: string
    var token: Option<string>
    var tokenExpiry: Option<int>
    var isAuthenticated: bool
    /** Sign-in probes (a first subscription listing) made at construction. */
    var signInProbes: nat
    var credentialCalls: nat

    /** Device-code and interactive sign-in probe the subscription list
        once; the default credential is taken as authenticated without a
        probe. The cache starts empty. */
    constructor(authMethod: string)
      ensures this.authMethod == authMethod
      ensures token.None? && tokenExpiry.None? && credentialCalls == 0
      ensures isAuthenticated
      ensures signInProbes == (if authMethod == "DEVICE_CODE" || authMethod == "INTERACTIVE" then 1 else 0)
    {
      this.authMethod := authMethod;
      token := None;
      tokenExpiry := None;
      credentialCalls := 0;
      if authMethod == "DEVICE_CODE" || authMethod == "INTERACTIVE" {
        signInProbes := 1;
      } else {
        signInProbes := 0;
      }
      isAuthenticated := true;
    }

    function Cache(): CacheState
      reads this
    {
      CacheState(token, tokenExpiry)
    }

    /** `get_token` at time `now`. */
    method GetToken(now: int, response: TokenResponse) returns (t: string)
      modifies this
      ensures (Cache(), t) == Step(old(Cache()), now, response)
      ensures credentialCalls == old(credentialCalls) + (if NeedsRefresh(old(token), old(tokenExpiry), now) then 1 else 0)
      ensures authMethod == old(authMethod) && isAuthenticated == old(isAuthenticated)
      ensures signInProbes == old(signInProbes)
    {
      if token.None? || tokenExpiry.None? || now >= tokenExpiry.value {
        credentialCalls := credentialCalls + 1;
        token := Some(response.token);
        tokenExpiry := Some(response.expiresOn - SafetyMargin);
      }
      t := token.value;
    }
  }

  /** The first call on a new cache always fetches. */
  lemma FirstCallFetches(now: int, response: TokenResponse)
    ensures Step(CacheState(None, None), now, response).1 == response.token
  {
  }
}
