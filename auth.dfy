/** The route guard's check of the stored login token: missing, undecodable,
    expired or accepted, with an unusable token removed from storage. */
module Auth {
  import opened Wrappers

  /** A decoded token payload: its `exp` claim, a NumericDate in seconds since
      the epoch (section 2 of RFC 7519), or None when the claim is absent. */
  datatype Payload = Payload(exp: Option<int>)

  /** How the stored token fares. */
  datatype Verdict = NoToken | Undecodable | Expired | Accepted

  /** What the route renders for the status: the loading view while it is null. */
  datatype Screen = Verifying | Protected | RedirectToLogin

  /**
   * `decoded.exp < Date.now() / 1000` with the clock in milliseconds: the
   * division is exact on reals, so it is `exp * 1000 < nowMs`. A missing claim
   * compares as false.
   */
  predicate ExpiredAt(p: Payload, nowMs: int)
  {
    p.exp.Some? && p.exp.value * 1000 < nowMs
  }

  /**
   * The decision inside the effect; `decode` stands for `jwtDecode`, None where
   * it throws. An empty stored string counts as no token.
   */
  function Classify(token: Option<string>, decode: string -> Option<Payload>, nowMs: int): (v: Verdict)
    ensures v == NoToken <==> !Truthy(token)
    ensures v == Undecodable <==> Truthy(token) && decode(token.value).None?
    ensures v == Expired <==> Truthy(token) && decode(token.value).Some? && ExpiredAt(decode(token.value).value, nowMs)
    ensures v == Accepted <==> Truthy(token) && decode(token.value).Some? && !ExpiredAt(decode(token.value).value, nowMs)
  {
    if !Truthy(token) then NoToken
    else match decode(token.value)
      case None => Undecodable
      case Some(p) => if ExpiredAt(p, nowMs) then Expired else Accepted
  }

  /**
   * Section 4.1.4 of RFC 7519 accepts a token only before its expiry time. The
   * guard accepts every such token, and also one whose expiry is exactly now
   * and one with no `exp` claim at all; it turns away only tokens strictly past
   * their expiry.
   */
  lemma ExpiryBoundary(token: string, decode: string -> Option<Payload>, nowMs: int)
    requires token != "" && decode(token).Some?
    ensures var p := decode(token).value;
      && (p.exp.Some? && nowMs < p.exp.value * 1000 ==> Classify(Some(token), decode, nowMs) == Accepted)
      && (p.exp.Some? && nowMs == p.exp.value * 1000 ==> Classify(Some(token), decode, nowMs) == Accepted)
      && (p.exp.None? ==> Classify(Some(token), decode, nowMs) == Accepted)
      && (Classify(Some(token), decode, nowMs) == Expired <==> p.exp.Some? && p.exp.value * 1000 < nowMs)
  {
  }

  function View(status: Option<bool>): (s: Screen)
    ensures s == Verifying <==> status.None?
    ensures s == Protected <==> status == Some(true)
  {
    match status
    case None => Verifying
    case Some(true) => Protected
    case Some(false) => RedirectToLogin
  }

  /** The guard's state: the `netrunner_token` entry of local storage and the
      `isAuthenticated` status. */
  class Guard {
    var storedToken: Option<string>
    var isAuthenticated: Option<bool>

    /** On mount the status is null, so the loading view shows. */
    constructor (storedToken: Option<string>)
      ensures this.storedToken == storedToken && isAuthenticated == None
      ensures View(isAuthenticated) == Verifying
    {
      this.storedToken := storedToken;
      isAuthenticated := None;
    }

    /**
     * The mount effect: the status is set once, to whether the token was
     * accepted; an undecodable or expired token is removed, while a missing or
     * accepted one leaves storage as it was.
     */
    method CheckToken(decode: string -> Option<Payload>, nowMs: int)
      modifies this
      ensures var v := Classify(old(storedToken), decode, nowMs);
        && isAuthenticated == Some(v == Accepted)
        && storedToken == (if v == Undecodable || v == Expired then None else old(storedToken))
      ensures View(isAuthenticated) != Verifying
    {
      var token := storedToken;
      if token.None? || token.value == "" {
        isAuthenticated := Some(false);
        return;
      }
      var decoded := decode(token.value);
      if decoded.None? {
        storedToken := None;
        isAuthenticated := Some(false);
        return;
      }
      if decoded.value.exp.Some? && decoded.value.exp.value * 1000 < nowMs {
        storedToken := None;
        isAuthenticated := Some(false);
      } else {
        isAuthenticated := Some(true);
      }
    }
  }
}
