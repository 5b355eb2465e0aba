/**
 * The CORS origin gatekeeper of the server: the allow-list built once at
 * start-up and the `origin` callback handed to the `cors` middleware.
 */
module Cors {
  import opened JsValues

  /** The four development origins that are always on the allow-list. */
  const FixedOrigins: seq<string> := [
    "http://localhost:5173",
    "http://localhost:5174",
    "http://127.0.0.1:5173",
    "http://127.0.0.1:5174"
  ]

  /** The one wildcard rule: every Vercel deployment, `*.vercel.app`. */
  const VercelSuffix: string := ".vercel.app"

  /** The message of the error the callback reports for a refused origin. */
  const DenyMessage: string := "Not allowed by CORS"

  /** The fixed options passed to the `cors` middleware beside `origin`. */
  const Credentials: bool := true
  const Methods: seq<string> := ["GET", "POST", "PUT", "DELETE", "OPTIONS"]
  const AllowedHeaders: seq<string> := ["Content-Type", "Authorization"]

  /** What the callback hands back: `callback(null, true)` or `callback(new Error(msg))`. */
  datatype Decision = Allow | Deny(msg: string)

  /**
   * `allowedOrigins`: the four fixed origins followed by `FRONTEND_URL`,
   * which is `None` when that variable is not set. The list holds exactly
   * those values.
   */
  function AllowedOrigins(frontendUrl: Option<string>): (list: seq<Option<string>>)
    ensures forall o :: Some(o) in list <==> o in FixedOrigins || frontendUrl == Some(o)
    ensures None in list <==> frontendUrl == None
  {
    [Some(FixedOrigins[0]), Some(FixedOrigins[1]), Some(FixedOrigins[2]), Some(FixedOrigins[3]), frontendUrl]
  }

  /**
   * The bare suffix test: any string followed by `.vercel.app`. It admits
   * Vercel deployment origins, but also `.vercel.app` alone and strings such
   * as `https://evil.com/.vercel.app`.
   */
  ghost predicate EndsInVercelApp(o: string) {
    HasSuffix(o, VercelSuffix)
  }

  /**
   * The `origin` callback. A falsy origin is admitted; so is one strictly
   * equal to an allow-list entry, and one that ends with `.vercel.app`;
   * every other origin is refused with the fixed CORS error.
   */
  function OriginDecision(origin: Option<string>, allowList: seq<Option<string>>): (d: Decision)
    ensures d.Deny? <==> Truthy(origin) && Some(origin.value) !in allowList && !EndsInVercelApp(origin.value)
    ensures d.Deny? ==> d.msg == DenyMessage
  {
    if !Truthy(origin) then Allow
    else if IndexOf(allowList, origin) != -1 then Allow
    else if Truthy(origin) && EndsWith(origin.value, VercelSuffix) then Allow
    else Deny(DenyMessage)
  }

  /** A request without an origin, or with an empty one, is admitted whatever the list holds. */
  lemma NoOriginAllowed(origin: Option<string>, allowList: seq<Option<string>>)
    requires !Truthy(origin)
    ensures OriginDecision(origin, allowList) == Allow
  {
  }

  /** Each fixed development origin is admitted, whatever `FRONTEND_URL` is. */
  lemma FixedOriginsAllowed(frontendUrl: Option<string>)
    ensures forall o :: o in FixedOrigins ==> OriginDecision(Some(o), AllowedOrigins(frontendUrl)) == Allow
  {
  }

  /** A set `FRONTEND_URL` is itself admitted. */
  lemma FrontendUrlAllowed(url: string)
    ensures OriginDecision(Some(url), AllowedOrigins(Some(url))) == Allow
  {
  }

  /**
   * `FRONTEND_URL` adds exactly its own value: an origin is admitted with it
   * set precisely when it is admitted without it or equals it.
   */
  lemma FrontendUrlAddsExactlyItself(o: string, frontendUrl: Option<string>)
    ensures OriginDecision(Some(o), AllowedOrigins(frontendUrl)) == Allow
        <==> OriginDecision(Some(o), AllowedOrigins(None)) == Allow || frontendUrl == Some(o)
  {
  }

  /** With `FRONTEND_URL` undefined, the list matches only the four fixed origins. */
  lemma UndefinedSlotNeverMatches(o: string)
    ensures IndexOf(AllowedOrigins(None), Some(o)) != -1 <==> o in FixedOrigins
  {
  }

  /** Every `<host>.vercel.app` origin is admitted, whatever the list holds. */
  lemma VercelDeploymentAllowed(host: string, allowList: seq<Option<string>>)
    ensures OriginDecision(Some(host + VercelSuffix), allowList) == Allow
  {
  }

  /** A truthy origin that is neither listed nor ends with `.vercel.app` is refused. */
  lemma UnlistedOriginDenied(o: string, allowList: seq<Option<string>>)
    requires o != "" && Some(o) !in allowList && !EndsWith(o, VercelSuffix)
    ensures OriginDecision(Some(o), allowList) == Deny(DenyMessage)
  {
  }

  /** No `https` origin is one of the fixed origins, which all use plain `http`. */
  lemma HttpsNotFixed(o: string)
    requires |o| > 4 && o[4] == 's'
    ensures o !in FixedOrigins
  {
    assert forall f :: f in FixedOrigins ==> |f| > 4 && f[4] == ':';
  }

  /**
   * An `https` origin whose last 11 characters differ from `.vercel.app` at
   * position `k` is refused unless `FRONTEND_URL` names it.
   */
  lemma LookalikeDenied(o: string, k: nat, frontendUrl: Option<string>)
    requires |o| > 4 && o[4] == 's'
    requires |VercelSuffix| <= |o| && k < |VercelSuffix| && o[|o| - |VercelSuffix| + k] != VercelSuffix[k]
    requires frontendUrl != Some(o)
    ensures OriginDecision(Some(o), AllowedOrigins(frontendUrl)) == Deny(DenyMessage)
  {
    HttpsNotFixed(o);
    MismatchNotEndsWith(o, VercelSuffix, k);
    UnlistedOriginDenied(o, AllowedOrigins(frontendUrl));
  }

  /**
   * The suffix test is case-sensitive and needs the leading dot, so these
   * look-alike hosts are refused unless `FRONTEND_URL` names them.
   */
  lemma LookalikeOriginsDenied(frontendUrl: Option<string>)
    ensures frontendUrl != Some("https://notvercel.app")
            ==> OriginDecision(Some("https://notvercel.app"), AllowedOrigins(frontendUrl)) == Deny(DenyMessage)
    ensures frontendUrl != Some("https://fakevercel.app")
            ==> OriginDecision(Some("https://fakevercel.app"), AllowedOrigins(frontendUrl)) == Deny(DenyMessage)
    ensures frontendUrl != Some("https://vercel.app")
            ==> OriginDecision(Some("https://vercel.app"), AllowedOrigins(frontendUrl)) == Deny(DenyMessage)
    ensures frontendUrl != Some("https://X.VERCEL.APP")
            ==> OriginDecision(Some("https://X.VERCEL.APP"), AllowedOrigins(frontendUrl)) == Deny(DenyMessage)
  {
    if frontendUrl != Some("https://notvercel.app") { NotvercelDenied(frontendUrl); }
    if frontendUrl != Some("https://fakevercel.app") { FakevercelDenied(frontendUrl); }
    if frontendUrl != Some("https://vercel.app") { BareVercelAppDenied(frontendUrl); }
    if frontendUrl != Some("https://X.VERCEL.APP") { UpperCaseVercelDenied(frontendUrl); }
  }

  /** `https://notvercel.app` lacks the dot before `vercel.app`. */
  lemma NotvercelDenied(frontendUrl: Option<string>)
    requires frontendUrl != Some("https://notvercel.app")
    ensures OriginDecision(Some("https://notvercel.app"), AllowedOrigins(frontendUrl)) == Deny(DenyMessage)
  {
    LookalikeDenied("https://notvercel.app", 0, frontendUrl);
  }

  /** `https://fakevercel.app` lacks the dot before `vercel.app`. */
  lemma FakevercelDenied(frontendUrl: Option<string>)
    requires frontendUrl != Some("https://fakevercel.app")
    ensures OriginDecision(Some("https://fakevercel.app"), AllowedOrigins(frontendUrl)) == Deny(DenyMessage)
  {
    LookalikeDenied("https://fakevercel.app", 0, frontendUrl);
  }

  /** `https://vercel.app` itself has no dot before `vercel.app`. */
  lemma BareVercelAppDenied(frontendUrl: Option<string>)
    requires frontendUrl != Some("https://vercel.app")
    ensures OriginDecision(Some("https://vercel.app"), AllowedOrigins(frontendUrl)) == Deny(DenyMessage)
  {
    LookalikeDenied("https://vercel.app", 0, frontendUrl);
  }

  /** `https://X.VERCEL.APP` differs in case only; the test is case-sensitive. */
  lemma UpperCaseVercelDenied(frontendUrl: Option<string>)
    requires frontendUrl != Some("https://X.VERCEL.APP")
    ensures OriginDecision(Some("https://X.VERCEL.APP"), AllowedOrigins(frontendUrl)) == Deny(DenyMessage)
  {
    LookalikeDenied("https://X.VERCEL.APP", 1, frontendUrl);
  }

  /** Adding entries to the allow-list never turns an admitted origin into a refused one. */
  lemma MoreEntriesNeverDeny(origin: Option<string>, allowList: seq<Option<string>>, larger: seq<Option<string>>)
    requires forall x :: x in allowList ==> x in larger
    requires OriginDecision(origin, allowList) == Allow
    ensures OriginDecision(origin, larger) == Allow
  {
  }

  /**
   * The decision depends on the list only through whether the origin is on
   * it; the order and repetition of entries are irrelevant.
   */
  lemma OnlyMembershipMatters(origin: Option<string>, allowList: seq<Option<string>>, other: seq<Option<string>>)
    requires forall x :: x in allowList <==> x in other
    ensures OriginDecision(origin, allowList) == OriginDecision(origin, other)
  {
  }

  /** The concrete requests: a local Vite origin, a Vercel preview and curl are admitted. */
  lemma AdmittedScenarios(frontendUrl: Option<string>)
    ensures OriginDecision(Some("http://localhost:5173"), AllowedOrigins(frontendUrl)) == Allow
    ensures OriginDecision(Some("https://myapp.vercel.app"), AllowedOrigins(frontendUrl)) == Allow
    ensures OriginDecision(None, AllowedOrigins(frontendUrl)) == Allow
  {
    FixedOriginsAllowed(frontendUrl);
    VercelDeploymentAllowed("https://myapp", AllowedOrigins(frontendUrl));
    assert "https://myapp" + VercelSuffix == "https://myapp.vercel.app";
  }

  /** The concrete refusal: `https://evil.com`, unless it is `FRONTEND_URL`. */
  lemma EvilOriginDenied(frontendUrl: Option<string>)
    requires frontendUrl != Some("https://evil.com")
    ensures OriginDecision(Some("https://evil.com"), AllowedOrigins(frontendUrl)) == Deny(DenyMessage)
  {
    LookalikeDenied("https://evil.com", 0, frontendUrl);
  }
}
