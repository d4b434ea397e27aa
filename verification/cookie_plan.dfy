/**
 * The pure part of the web-view session cookie manager: the credential
 * record it reads, the twelve cookie writes it derives from it, and what a
 * sequence of such writes leaves in the cookie store and in the log.
 */
module CookiePlan {
  import opened Wrappers

  // Cookie names fixed by the manager.
  const CLIENT_SRC: string := "clientSrc"
  const SID_CLIENT: string := "sid_Client"
  const ORG_ID: string := "oid"
  const CSRF_TOKEN_COOKIE_NAME: string := "eikoocnekotMob"

  /** The token format under which the main session value is the parent session id. */
  const JWT_TOKEN_FORMAT: string := "jwt"

  /** A parsed URL, reduced to the one part the manager reads. */
  datatype Url = Url(host: Option<string>)

  /** The OAuth credential fields the manager reads. */
  datatype Credentials = Credentials(
    userId: Option<string>,
    instanceUrl: Option<Url>,
    lightningDomain: Option<string>,
    lightningSid: Option<string>,
    contentDomain: Option<string>,
    contentSid: Option<string>,
    accessToken: Option<string>,
    parentSid: Option<string>,
    tokenFormat: Option<string>,
    vfDomain: Option<string>,
    vfSid: Option<string>,
    cookieClientSrc: Option<string>,
    cookieSidClient: Option<string>,
    sidCookieName: Option<string>,
    csrfToken: Option<string>)

  /** A user account: its credentials and the org id of its identity. */
  datatype UserAccount = UserAccount(credentials: Credentials, orgId: Option<string>)

  /** The four web surfaces that receive cookies. */
  datatype Site = Main | Lightning | Content | Visualforce

  /** The five kinds of cookie the manager writes. */
  datatype Kind = Sid | ClientSrc | SidClient | OrgId | Csrf

  /** A cookie as issued to the store: the property set handed to the cookie initializer. */
  datatype Cookie = Cookie(name: string, value: string, domain: string, path: string, secure: bool, discard: bool)

  /** One planned call of the per-cookie setter, with its still optional arguments. */
  datatype PlannedWrite = PlannedWrite(site: Site, kind: Kind, domain: Option<string>, name: Option<string>, value: Option<string>)
  {
    /**
     * The write's label. The setter logs its `Text()`; the label itself also
     * keeps the site, which the text leaves out for the auxiliary cookies.
     */
    function Label(): CookieLabel {
      CookieLabel(site, kind)
    }

    /** The setter's guard: domain, name and value are all present. */
    predicate Complete() {
      domain.Some? && name.Some? && value.Some?
    }

    /** The cookie this write asks for. */
    function ToCookie(): Cookie
      requires Complete()
    {
      Properties(domain.value, name.value, value.value)
    }
  }

  /** What a log message calls a write: "sid for <site>" for a sid, else the cookie's fixed name. */
  datatype CookieLabel = CookieLabel(site: Site, kind: Kind) {
    function Text(): string {
      match kind
      case Sid => (match site
        case Main => "sid for main"
        case Lightning => "sid for lightning"
        case Content => "sid for content"
        case Visualforce => "sid for vf")
      case ClientSrc => CLIENT_SRC
      case SidClient => SID_CLIENT
      case OrgId => ORG_ID
      case Csrf => CSRF_TOKEN_COOKIE_NAME
    }
  }

  /** The property set of every cookie the manager creates: root path, secure, session-only. */
  function Properties(domain: string, name: string, value: string): Cookie {
    Cookie(name, value, domain, "/", true, true)
  }

  /** Log entries the manager emits. */
  datatype InfoEvent = SettingCookies | DoneSettingCookies
  datatype LogEntry =
    | Info(event: InfoEvent, userId: Option<string>)
    | Warning(cookieType: CookieLabel, missingIn: Option<string>)
    | Debug(cookieType: CookieLabel, setIn: string, value: string)

  /** The main domain: the instance URL's host, or the empty string. */
  function GetDomainFromUrl(url: Option<Url>): (r: string)
    ensures url.Some? && url.value.host.Some? ==> r == url.value.host.value
    ensures url.None? || url.value.host.None? ==> r == ""
  {
    if url.Some? then url.value.host.GetOr("") else ""
  }

  /** The main session value, chosen by token format. */
  function MainSid(creds: Credentials): (r: Option<string>)
    ensures creds.tokenFormat == Some(JWT_TOKEN_FORMAT) ==> r == creds.parentSid
    ensures creds.tokenFormat != Some(JWT_TOKEN_FORMAT) ==> r == creds.accessToken
  {
    if creds.tokenFormat == Some(JWT_TOKEN_FORMAT) then creds.parentSid else creds.accessToken
  }

  /** The domain every cookie of `site` is written to. */
  function SiteDomain(account: UserAccount, site: Site): Option<string> {
    var creds := account.credentials;
    match site
    case Main => Some(GetDomainFromUrl(creds.instanceUrl))
    case Lightning => creds.lightningDomain
    case Content => creds.contentDomain
    case Visualforce => creds.vfDomain
  }

  /** The session identifier written to `site`. */
  function SiteSid(account: UserAccount, site: Site): Option<string> {
    var creds := account.credentials;
    match site
    case Main => MainSid(creds)
    case Lightning => creds.lightningSid
    case Content => creds.contentSid
    case Visualforce => creds.vfSid
  }

  /** The name of a cookie of `kind`: the credential's sid cookie name, or a fixed name. */
  function KindName(account: UserAccount, kind: Kind): Option<string> {
    match kind
    case Sid => account.credentials.sidCookieName
    case ClientSrc => Some(CLIENT_SRC)
    case SidClient => Some(SID_CLIENT)
    case OrgId => Some(ORG_ID)
    case Csrf => Some(CSRF_TOKEN_COOKIE_NAME)
  }

  /** The value of a cookie of `kind` on `site`; only the sid differs between sites. */
  function KindValue(account: UserAccount, site: Site, kind: Kind): Option<string> {
    var creds := account.credentials;
    match kind
    case Sid => SiteSid(account, site)
    case ClientSrc => creds.cookieClientSrc
    case SidClient => creds.cookieSidClient
    case OrgId => account.orgId
    case Csrf => creds.csrfToken
  }

  function Slot(account: UserAccount, site: Site, kind: Kind): PlannedWrite {
    PlannedWrite(site, kind, SiteDomain(account, site), KindName(account, kind), KindValue(account, site, kind))
  }

  /** The writes the manager attempts for `account`, one per setter call and in call order. */
  function Plan(account: UserAccount): (p: seq<PlannedWrite>)
    ensures |p| == 12
  {
    [Slot(account, Main, Sid), Slot(account, Main, ClientSrc), Slot(account, Main, SidClient),
     Slot(account, Main, OrgId), Slot(account, Main, Csrf),
     Slot(account, Lightning, Sid), Slot(account, Lightning, Csrf),
     Slot(account, Content, Sid),
     Slot(account, Visualforce, Sid), Slot(account, Visualforce, ClientSrc),
     Slot(account, Visualforce, SidClient), Slot(account, Visualforce, OrgId)]
  }

  // ---------------------------------------------------------------------
  // What one setter call and a sequence of them produce

  /** The cookies one setter call issues: none when an argument is absent or the initializer rejects it. */
  function Attempt(domain: Option<string>, name: Option<string>, value: Option<string>, accepts: Cookie -> bool): seq<Cookie> {
    if domain.Some? && name.Some? && value.Some? && accepts(Properties(domain.value, name.value, value.value))
    then [Properties(domain.value, name.value, value.value)]
    else []
  }

  /** The log entries one setter call emits. */
  function StepLog(cookieType: CookieLabel, domain: Option<string>, name: Option<string>, value: Option<string>, accepts: Cookie -> bool): seq<LogEntry> {
    if domain.None? || name.None? || value.None? then [Warning(cookieType, domain)]
    else if accepts(Properties(domain.value, name.value, value.value)) then [Debug(cookieType, domain.value, value.value)]
    else []
  }

  function AttemptOf(w: PlannedWrite, accepts: Cookie -> bool): seq<Cookie> {
    Attempt(w.domain, w.name, w.value, accepts)
  }

  function StepLogOf(w: PlannedWrite, accepts: Cookie -> bool): seq<LogEntry> {
    StepLog(w.Label(), w.domain, w.name, w.value, accepts)
  }

  /** The cookies a sequence of writes issues, in order. */
  function Issued(p: seq<PlannedWrite>, accepts: Cookie -> bool): seq<Cookie> {
    if p == [] then [] else AttemptOf(p[0], accepts) + Issued(p[1..], accepts)
  }

  /** The log entries a sequence of writes emits, in order. */
  function Trace(p: seq<PlannedWrite>, accepts: Cookie -> bool): seq<LogEntry> {
    if p == [] then [] else StepLogOf(p[0], accepts) + Trace(p[1..], accepts)
  }

  /** The store after the first `k` writes of `p`, one setter call at a time, starting from `cookies`. */
  function StoreAfter(cookies: seq<Cookie>, p: seq<PlannedWrite>, k: nat, accepts: Cookie -> bool): seq<Cookie>
    requires k <= |p|
  {
    if k == 0 then cookies else StoreAfter(cookies, p, k - 1, accepts) + AttemptOf(p[k - 1], accepts)
  }

  /** The log after the first `k` writes of `p`, one setter call at a time, starting from `entries`. */
  function LogAfter(entries: seq<LogEntry>, p: seq<PlannedWrite>, k: nat, accepts: Cookie -> bool): seq<LogEntry>
    requires k <= |p|
  {
    if k == 0 then entries else LogAfter(entries, p, k - 1, accepts) + StepLogOf(p[k - 1], accepts)
  }

  /** The warning entries of a log. */
  function Warnings(log: seq<LogEntry>): seq<LogEntry> {
    if log == [] then []
    else (if log[0].Warning? then [log[0]] else []) + Warnings(log[1..])
  }

  /** One warning per incomplete write: its label and its domain. */
  function Skips(p: seq<PlannedWrite>): seq<LogEntry> {
    if p == [] then []
    else (if p[0].Complete() then [] else [Warning(p[0].Label(), p[0].domain)]) + Skips(p[1..])
  }

  // ---------------------------------------------------------------------
  // Lemmas about sequences of writes

  lemma {:induction false} IssuedAppend(p: seq<PlannedWrite>, q: seq<PlannedWrite>, accepts: Cookie -> bool)
    ensures Issued(p + q, accepts) == Issued(p, accepts) + Issued(q, accepts)
  {
    if p == [] {
      assert p + q == q;
    } else {
      assert (p + q)[1..] == p[1..] + q;
      IssuedAppend(p[1..], q, accepts);
    }
  }

  lemma {:induction false} TraceAppend(p: seq<PlannedWrite>, q: seq<PlannedWrite>, accepts: Cookie -> bool)
    ensures Trace(p + q, accepts) == Trace(p, accepts) + Trace(q, accepts)
  {
    if p == [] {
      assert p + q == q;
    } else {
      assert (p + q)[1..] == p[1..] + q;
      TraceAppend(p[1..], q, accepts);
    }
  }

  /** Writing one more planned cookie extends the store and the log by that one step. */
  lemma PrefixStep(p: seq<PlannedWrite>, k: nat, accepts: Cookie -> bool)
    requires k < |p|
    ensures Issued(p[..k + 1], accepts) == Issued(p[..k], accepts) + AttemptOf(p[k], accepts)
    ensures Trace(p[..k + 1], accepts) == Trace(p[..k], accepts) + StepLogOf(p[k], accepts)
  {
    assert p[..k + 1] == p[..k] + [p[k]];
    IssuedAppend(p[..k], [p[k]], accepts);
    TraceAppend(p[..k], [p[k]], accepts);
    assert [p[k]][1..] == [];
  }

  /**
   * Calling the setter for the writes one after another appends exactly
   * their issued cookies and their log entries, in order.
   */
  lemma {:induction false} StepsAppendPlan(cookies: seq<Cookie>, entries: seq<LogEntry>, p: seq<PlannedWrite>, k: nat, accepts: Cookie -> bool)
    requires k <= |p|
    ensures StoreAfter(cookies, p, k, accepts) == cookies + Issued(p[..k], accepts)
    ensures LogAfter(entries, p, k, accepts) == entries + Trace(p[..k], accepts)
  {
    if k == 0 {
      assert p[..0] == [];
    } else {
      StepsAppendPlan(cookies, entries, p, k - 1, accepts);
      PrefixStep(p, k - 1, accepts);
      var issued, attempt := Issued(p[..k - 1], accepts), AttemptOf(p[k - 1], accepts);
      assert (cookies + issued) + attempt == cookies + (issued + attempt);
      var trace, step := Trace(p[..k - 1], accepts), StepLogOf(p[k - 1], accepts);
      assert (entries + trace) + step == entries + (trace + step);
    }
  }

  /**
   * A cookie is issued exactly when some write asks for it with all
   * arguments present and the cookie initializer accepts it.
   */
  lemma {:induction false} IssuedMembership(p: seq<PlannedWrite>, accepts: Cookie -> bool, c: Cookie)
    ensures c in Issued(p, accepts) <==>
      exists i :: 0 <= i < |p| && p[i].Complete() && p[i].ToCookie() == c && accepts(c)
  {
    if p != [] {
      IssuedMembership(p[1..], accepts, c);
      if exists i :: 0 <= i < |p[1..]| && p[1..][i].Complete() && p[1..][i].ToCookie() == c && accepts(c) {
        var i :| 0 <= i < |p[1..]| && p[1..][i].Complete() && p[1..][i].ToCookie() == c && accepts(c);
        assert p[i + 1] == p[1..][i];
      }
      if exists i :: 0 <= i < |p| && p[i].Complete() && p[i].ToCookie() == c && accepts(c) {
        var i :| 0 <= i < |p| && p[i].Complete() && p[i].ToCookie() == c && accepts(c);
        if i > 0 {
          assert p[1..][i - 1] == p[i];
        }
      }
    }
  }

  /** Every issued cookie has root path, is secure and is session-only, and was accepted. */
  lemma IssuedAreSessionCookies(p: seq<PlannedWrite>, accepts: Cookie -> bool)
    ensures forall c :: c in Issued(p, accepts) ==>
      c.path == "/" && c.secure && c.discard && accepts(c)
  {
    forall c | c in Issued(p, accepts)
      ensures c.path == "/" && c.secure && c.discard && accepts(c)
    {
      IssuedMembership(p, accepts, c);
    }
  }

  /** The log's warnings are exactly one per incomplete write, in order. */
  lemma {:induction false} WarningsAreSkips(p: seq<PlannedWrite>, accepts: Cookie -> bool)
    ensures Warnings(Trace(p, accepts)) == Skips(p)
  {
    if p != [] {
      WarningsAreSkips(p[1..], accepts);
      WarningsAppend(StepLogOf(p[0], accepts), Trace(p[1..], accepts));
    }
  }

  lemma {:induction false} WarningsAppend(a: seq<LogEntry>, b: seq<LogEntry>)
    ensures Warnings(a + b) == Warnings(a) + Warnings(b)
  {
    if a == [] {
      assert a + b == b;
    } else {
      assert (a + b)[0] == a[0];
      assert (a + b)[1..] == a[1..] + b;
      WarningsAppend(a[1..], b);
      var head := if a[0].Warning? then [a[0]] else [];
      assert Warnings(a + b) == head + (Warnings(a[1..]) + Warnings(b));
      assert head + (Warnings(a[1..]) + Warnings(b)) == (head + Warnings(a[1..])) + Warnings(b);
    }
  }

  /**
   * Each write either warns or may issue one cookie; when the initializer
   * accepts every cookie asked for, each write does exactly one of the two.
   */
  lemma {:induction false} IssuedCount(p: seq<PlannedWrite>, accepts: Cookie -> bool)
    ensures |Issued(p, accepts)| + |Skips(p)| <= |p|
    ensures (forall i :: 0 <= i < |p| && p[i].Complete() ==> accepts(p[i].ToCookie())) ==>
      |Issued(p, accepts)| + |Skips(p)| == |p|
  {
    if p != [] {
      IssuedCount(p[1..], accepts);
      if forall i :: 0 <= i < |p| && p[i].Complete() ==> accepts(p[i].ToCookie()) {
        forall i | 0 <= i < |p[1..]| && p[1..][i].Complete()
          ensures accepts(p[1..][i].ToCookie())
        {
          assert p[1..][i] == p[i + 1];
        }
      }
    }
  }

  /**
   * A write missing its domain, name or value skips only itself: the cookies
   * and log of the other writes are what they would be without it, and it
   * adds exactly one warning.
   */
  lemma SkipOnlyOwn(p: seq<PlannedWrite>, i: nat, w: PlannedWrite, accepts: Cookie -> bool)
    requires i < |p|
    requires !w.Complete()
    ensures Issued(p[i := w], accepts) == Issued(p[..i], accepts) + Issued(p[i + 1..], accepts)
    ensures Trace(p[i := w], accepts) ==
      Trace(p[..i], accepts) + [Warning(w.Label(), w.domain)] + Trace(p[i + 1..], accepts)
  {
    var rest := [w] + p[i + 1..];
    assert p[i := w] == p[..i] + rest;
    IssuedAppend(p[..i], rest, accepts);
    TraceAppend(p[..i], rest, accepts);
    assert rest != [] && rest[0] == w && rest[1..] == p[i + 1..];
    assert AttemptOf(w, accepts) == [];
    assert StepLogOf(w, accepts) == [Warning(w.Label(), w.domain)];
    assert Issued(rest, accepts) == Issued(p[i + 1..], accepts);
    assert Trace(rest, accepts) == [Warning(w.Label(), w.domain)] + Trace(p[i + 1..], accepts);
  }

  // ---------------------------------------------------------------------
  // Lemmas about the plan

  /** Twelve writes: main ×5, lightning ×2, content ×1, Visualforce ×4, in this order and with these kinds. */
  lemma PlanOrder(account: UserAccount)
    ensures var p := Plan(account);
      p[0].site == Main && p[0].kind == Sid &&
      p[1].site == Main && p[1].kind == ClientSrc &&
      p[2].site == Main && p[2].kind == SidClient &&
      p[3].site == Main && p[3].kind == OrgId &&
      p[4].site == Main && p[4].kind == Csrf &&
      p[5].site == Lightning && p[5].kind == Sid &&
      p[6].site == Lightning && p[6].kind == Csrf &&
      p[7].site == Content && p[7].kind == Sid &&
      p[8].site == Visualforce && p[8].kind == Sid &&
      p[9].site == Visualforce && p[9].kind == ClientSrc &&
      p[10].site == Visualforce && p[10].kind == SidClient &&
      p[11].site == Visualforce && p[11].kind == OrgId
  {
    PlanEntries(account);
  }

  /** The twelve writes spelled out, with the labels the setter logs. */
  lemma PlanEntries(account: UserAccount)
    ensures var p, creds := Plan(account), account.credentials;
      var main := Some(GetDomainFromUrl(creds.instanceUrl));
      |p| == 12 &&
      p[0] == PlannedWrite(Main, Sid, main, creds.sidCookieName, MainSid(creds)) &&
      p[1] == PlannedWrite(Main, ClientSrc, main, Some(CLIENT_SRC), creds.cookieClientSrc) &&
      p[2] == PlannedWrite(Main, SidClient, main, Some(SID_CLIENT), creds.cookieSidClient) &&
      p[3] == PlannedWrite(Main, OrgId, main, Some(ORG_ID), account.orgId) &&
      p[4] == PlannedWrite(Main, Csrf, main, Some(CSRF_TOKEN_COOKIE_NAME), creds.csrfToken) &&
      p[5] == PlannedWrite(Lightning, Sid, creds.lightningDomain, creds.sidCookieName, creds.lightningSid) &&
      p[6] == PlannedWrite(Lightning, Csrf, creds.lightningDomain, Some(CSRF_TOKEN_COOKIE_NAME), creds.csrfToken) &&
      p[7] == PlannedWrite(Content, Sid, creds.contentDomain, creds.sidCookieName, creds.contentSid) &&
      p[8] == PlannedWrite(Visualforce, Sid, creds.vfDomain, creds.sidCookieName, creds.vfSid) &&
      p[9] == PlannedWrite(Visualforce, ClientSrc, creds.vfDomain, Some(CLIENT_SRC), creds.cookieClientSrc) &&
      p[10] == PlannedWrite(Visualforce, SidClient, creds.vfDomain, Some(SID_CLIENT), creds.cookieSidClient) &&
      p[11] == PlannedWrite(Visualforce, OrgId, creds.vfDomain, Some(ORG_ID), account.orgId)
  {
  }

  /**
   * The setter calls of the plan, spelled out with the credential fields
   * they read, append exactly the plan's cookies and log entries.
   * The starting store `cookies` and log `entries` appear on both sides on
   * purpose: `+` associates to the left, so the right-hand sides have the
   * very shape the store and the log take in `SetCookies` after each of its
   * twelve calls, which lets the method's postcondition follow by matching.
   */
  lemma PlanSteps(account: UserAccount, accepts: Cookie -> bool, cookies: seq<Cookie>, entries: seq<LogEntry>)
    ensures var creds := account.credentials;
      var main := Some(GetDomainFromUrl(creds.instanceUrl));
      cookies + Issued(Plan(account), accepts) == cookies +
        Attempt(main, creds.sidCookieName, MainSid(creds), accepts) +
        Attempt(main, Some(CLIENT_SRC), creds.cookieClientSrc, accepts) +
        Attempt(main, Some(SID_CLIENT), creds.cookieSidClient, accepts) +
        Attempt(main, Some(ORG_ID), account.orgId, accepts) +
        Attempt(main, Some(CSRF_TOKEN_COOKIE_NAME), creds.csrfToken, accepts) +
        Attempt(creds.lightningDomain, creds.sidCookieName, creds.lightningSid, accepts) +
        Attempt(creds.lightningDomain, Some(CSRF_TOKEN_COOKIE_NAME), creds.csrfToken, accepts) +
        Attempt(creds.contentDomain, creds.sidCookieName, creds.contentSid, accepts) +
        Attempt(creds.vfDomain, creds.sidCookieName, creds.vfSid, accepts) +
        Attempt(creds.vfDomain, Some(CLIENT_SRC), creds.cookieClientSrc, accepts) +
        Attempt(creds.vfDomain, Some(SID_CLIENT), creds.cookieSidClient, accepts) +
        Attempt(creds.vfDomain, Some(ORG_ID), account.orgId, accepts)
    ensures var creds := account.credentials;
      var main := Some(GetDomainFromUrl(creds.instanceUrl));
      entries + Trace(Plan(account), accepts) == entries +
        StepLog(CookieLabel(Main, Sid), main, creds.sidCookieName, MainSid(creds), accepts) +
        StepLog(CookieLabel(Main, ClientSrc), main, Some(CLIENT_SRC), creds.cookieClientSrc, accepts) +
        StepLog(CookieLabel(Main, SidClient), main, Some(SID_CLIENT), creds.cookieSidClient, accepts) +
        StepLog(CookieLabel(Main, OrgId), main, Some(ORG_ID), account.orgId, accepts) +
        StepLog(CookieLabel(Main, Csrf), main, Some(CSRF_TOKEN_COOKIE_NAME), creds.csrfToken, accepts) +
        StepLog(CookieLabel(Lightning, Sid), creds.lightningDomain, creds.sidCookieName, creds.lightningSid, accepts) +
        StepLog(CookieLabel(Lightning, Csrf), creds.lightningDomain, Some(CSRF_TOKEN_COOKIE_NAME), creds.csrfToken, accepts) +
        StepLog(CookieLabel(Content, Sid), creds.contentDomain, creds.sidCookieName, creds.contentSid, accepts) +
        StepLog(CookieLabel(Visualforce, Sid), creds.vfDomain, creds.sidCookieName, creds.vfSid, accepts) +
        StepLog(CookieLabel(Visualforce, ClientSrc), creds.vfDomain, Some(CLIENT_SRC), creds.cookieClientSrc, accepts) +
        StepLog(CookieLabel(Visualforce, SidClient), creds.vfDomain, Some(SID_CLIENT), creds.cookieSidClient, accepts) +
        StepLog(CookieLabel(Visualforce, OrgId), creds.vfDomain, Some(ORG_ID), account.orgId, accepts)
  {
    var p := Plan(account);
    PlanEntries(account);
    assert StoreAfter(cookies, p, 1, accepts) == StoreAfter(cookies, p, 0, accepts) + AttemptOf(p[0], accepts);
    assert LogAfter(entries, p, 1, accepts) == LogAfter(entries, p, 0, accepts) + StepLogOf(p[0], accepts);
    assert StoreAfter(cookies, p, 2, accepts) == StoreAfter(cookies, p, 1, accepts) + AttemptOf(p[1], accepts);
    assert LogAfter(entries, p, 2, accepts) == LogAfter(entries, p, 1, accepts) + StepLogOf(p[1], accepts);
    assert StoreAfter(cookies, p, 3, accepts) == StoreAfter(cookies, p, 2, accepts) + AttemptOf(p[2], accepts);
    assert LogAfter(entries, p, 3, accepts) == LogAfter(entries, p, 2, accepts) + StepLogOf(p[2], accepts);
    assert StoreAfter(cookies, p, 4, accepts) == StoreAfter(cookies, p, 3, accepts) + AttemptOf(p[3], accepts);
    assert LogAfter(entries, p, 4, accepts) == LogAfter(entries, p, 3, accepts) + StepLogOf(p[3], accepts);
    assert StoreAfter(cookies, p, 5, accepts) == StoreAfter(cookies, p, 4, accepts) + AttemptOf(p[4], accepts);
    assert LogAfter(entries, p, 5, accepts) == LogAfter(entries, p, 4, accepts) + StepLogOf(p[4], accepts);
    assert StoreAfter(cookies, p, 6, accepts) == StoreAfter(cookies, p, 5, accepts) + AttemptOf(p[5], accepts);
    assert LogAfter(entries, p, 6, accepts) == LogAfter(entries, p, 5, accepts) + StepLogOf(p[5], accepts);
    assert StoreAfter(cookies, p, 7, accepts) == StoreAfter(cookies, p, 6, accepts) + AttemptOf(p[6], accepts);
    assert LogAfter(entries, p, 7, accepts) == LogAfter(entries, p, 6, accepts) + StepLogOf(p[6], accepts);
    assert StoreAfter(cookies, p, 8, accepts) == StoreAfter(cookies, p, 7, accepts) + AttemptOf(p[7], accepts);
    assert LogAfter(entries, p, 8, accepts) == LogAfter(entries, p, 7, accepts) + StepLogOf(p[7], accepts);
    assert StoreAfter(cookies, p, 9, accepts) == StoreAfter(cookies, p, 8, accepts) + AttemptOf(p[8], accepts);
    assert LogAfter(entries, p, 9, accepts) == LogAfter(entries, p, 8, accepts) + StepLogOf(p[8], accepts);
    assert StoreAfter(cookies, p, 10, accepts) == StoreAfter(cookies, p, 9, accepts) + AttemptOf(p[9], accepts);
    assert LogAfter(entries, p, 10, accepts) == LogAfter(entries, p, 9, accepts) + StepLogOf(p[9], accepts);
    assert StoreAfter(cookies, p, 11, accepts) == StoreAfter(cookies, p, 10, accepts) + AttemptOf(p[10], accepts);
    assert LogAfter(entries, p, 11, accepts) == LogAfter(entries, p, 10, accepts) + StepLogOf(p[10], accepts);
    assert StoreAfter(cookies, p, 12, accepts) == StoreAfter(cookies, p, 11, accepts) + AttemptOf(p[11], accepts);
    assert LogAfter(entries, p, 12, accepts) == LogAfter(entries, p, 11, accepts) + StepLogOf(p[11], accepts);
    StepsAppendPlan(cookies, entries, p, 12, accepts);
    assert p[..12] == p;
  }

  /**
   * Writes to one site share one domain, writes of one kind share one name,
   * and writes of one auxiliary kind carry the same value on every site.
   */
  lemma PlanArguments(account: UserAccount)
    ensures var p := Plan(account);
      forall i, j :: 0 <= i < |p| && 0 <= j < |p| && p[i].site == p[j].site ==>
        p[i].domain == p[j].domain
    ensures var p := Plan(account);
      forall i, j :: 0 <= i < |p| && 0 <= j < |p| && p[i].kind == p[j].kind ==>
        p[i].name == p[j].name
    ensures var p := Plan(account);
      forall i, j :: 0 <= i < |p| && 0 <= j < |p| && p[i].kind == p[j].kind && p[i].kind != Sid ==>
        p[i].value == p[j].value
  {
    PlanEntries(account);
  }

  /**
   * The CSRF cookie goes to main and lightning only; client source, session
   * client and org id go to main and Visualforce only; content gets only
   * its sid; no site gets two sid writes.
   */
  lemma PlanPlacement(account: UserAccount)
    ensures forall i :: 0 <= i < |Plan(account)| && Plan(account)[i].kind == Csrf ==>
      Plan(account)[i].site in {Main, Lightning}
    ensures forall i :: 0 <= i < |Plan(account)| && Plan(account)[i].kind in {ClientSrc, SidClient, OrgId} ==>
      Plan(account)[i].site in {Main, Visualforce}
    ensures forall i :: 0 <= i < |Plan(account)| && Plan(account)[i].site == Content ==> Plan(account)[i].kind == Sid
    ensures forall i, j :: 0 <= i < j < |Plan(account)| && Plan(account)[i].kind == Sid && Plan(account)[j].kind == Sid ==>
      Plan(account)[i].site != Plan(account)[j].site
  {
    PlanOrder(account);
  }

  /** All four sid writes use the credential's one sid cookie name; the others use fixed names. */
  lemma SidWritesShareName(account: UserAccount)
    ensures forall w :: w in Plan(account) && w.kind == Sid ==> w.name == account.credentials.sidCookieName
    ensures forall w :: w in Plan(account) && w.kind != Sid ==>
      w.name.Some? && w.name.value in {CLIENT_SRC, SID_CLIENT, ORG_ID, CSRF_TOKEN_COOKIE_NAME}
  {
  }

  /** The main session value is the parent sid under JWT and the access token otherwise. */
  lemma MainSidSelection(account: UserAccount)
    ensures account.credentials.tokenFormat == Some(JWT_TOKEN_FORMAT) ==> Plan(account)[0].value == account.credentials.parentSid
    ensures account.credentials.tokenFormat != Some(JWT_TOKEN_FORMAT) ==> Plan(account)[0].value == account.credentials.accessToken
  {
  }

  /** Main-domain writes always have a domain, so none of them is skipped for lack of one. */
  lemma MainDomainNeverMissing(account: UserAccount)
    ensures forall w :: w in Plan(account) && w.site == Main ==>
      w.domain == Some(GetDomainFromUrl(account.credentials.instanceUrl))
    ensures forall w :: w in Plan(account) && w.site == Main && w.name.Some? && w.value.Some? ==> w.Complete()
  {
  }

  /** The start and done entries around the setter calls add no warning to the log. */
  lemma FramingAddsNoWarnings(prior: seq<LogEntry>, userId: Option<string>, t: seq<LogEntry>)
    ensures Warnings(prior + [Info(SettingCookies, userId)] + t + [Info(DoneSettingCookies, userId)]) ==
      Warnings(prior) + Warnings(t)
  {
    var start, done := [Info(SettingCookies, userId)], [Info(DoneSettingCookies, userId)];
    assert Warnings(start) == [] && Warnings(done) == [] by {
      assert start[1..] == [] && done[1..] == [];
    }
    WarningsAppend(prior, start);
    WarningsAppend(prior + start, t);
    WarningsAppend(prior + start + t, done);
  }

  /** At most twelve cookies are issued, whatever is missing or rejected. */
  lemma AtMostTwelve(account: UserAccount, accepts: Cookie -> bool)
    ensures |Issued(Plan(account), accepts)| <= 12
  {
    IssuedCount(Plan(account), accepts);
  }

  /**
   * Without a sid cookie name no sid cookie is issued anywhere, while each
   * auxiliary cookie whose arguments are present and accepted still is.
   */
  lemma NoSidNameOnlyAuxiliary(account: UserAccount, accepts: Cookie -> bool)
    requires account.credentials.sidCookieName.None?
    ensures forall c :: c in Issued(Plan(account), accepts) ==>
      c.name in {CLIENT_SRC, SID_CLIENT, ORG_ID, CSRF_TOKEN_COOKIE_NAME}
    ensures forall w :: w in Plan(account) && w.kind != Sid && w.Complete() && accepts(w.ToCookie()) ==>
      w.ToCookie() in Issued(Plan(account), accepts)
  {
    var p := Plan(account);
    forall c | c in Issued(p, accepts)
      ensures c.name in {CLIENT_SRC, SID_CLIENT, ORG_ID, CSRF_TOKEN_COOKIE_NAME}
    {
      IssuedMembership(p, accepts, c);
      var i :| 0 <= i < |p| && p[i].Complete() && p[i].ToCookie() == c && accepts(c);
      assert p[i].kind != Sid;
    }
    forall w | w in p && w.kind != Sid && w.Complete() && accepts(w.ToCookie())
      ensures w.ToCookie() in Issued(p, accepts)
    {
      var i :| 0 <= i < |p| && p[i] == w;
      IssuedMembership(p, accepts, w.ToCookie());
    }
  }

  /**
   * A planned write missing its domain, name or value changes nothing but
   * its own step: one warning in its place, and the other writes' cookies
   * as they are.
   */
  lemma PlanSkipOnlyOwn(account: UserAccount, i: nat, accepts: Cookie -> bool)
    requires i < |Plan(account)|
    requires !Plan(account)[i].Complete()
    ensures var p := Plan(account);
      Issued(p, accepts) == Issued(p[..i], accepts) + Issued(p[i + 1..], accepts) &&
      Trace(p, accepts) == Trace(p[..i], accepts) + [Warning(p[i].Label(), p[i].domain)] + Trace(p[i + 1..], accepts)
  {
    var p := Plan(account);
    assert p[i := p[i]] == p;
    SkipOnlyOwn(p, i, p[i], accepts);
  }

  /** Every argument the setter needs is present. */
  predicate FullyPopulated(account: UserAccount) {
    forall w :: w in Plan(account) ==> w.Complete()
  }

  /** A fully populated account whose cookies are all accepted issues all twelve and logs no warning. */
  lemma FullAccountIssuesTwelve(account: UserAccount, accepts: Cookie -> bool)
    requires FullyPopulated(account)
    requires forall w :: w in Plan(account) ==> accepts(w.ToCookie())
    ensures |Issued(Plan(account), accepts)| == 12
    ensures Warnings(Trace(Plan(account), accepts)) == []
  {
    var p := Plan(account);
    forall i | 0 <= i < |p| && p[i].Complete()
      ensures accepts(p[i].ToCookie())
    {
      assert p[i] in p;
    }
    IssuedCount(p, accepts);
    NoSkips(p);
    WarningsAreSkips(p, accepts);
  }

  lemma {:induction false} NoSkips(p: seq<PlannedWrite>)
    requires forall w :: w in p ==> w.Complete()
    ensures Skips(p) == []
  {
    if p != [] {
      assert p[0] in p;
      assert forall w :: w in p[1..] ==> w in p;
      NoSkips(p[1..]);
    }
  }

  /**
   * When exactly one write misses an argument and every complete write is
   * accepted, all other writes issue their cookie and the log holds a single
   * warning, for that write.
   */
  lemma {:induction false} SingleSkip(p: seq<PlannedWrite>, i: nat, accepts: Cookie -> bool)
    requires i < |p|
    requires forall j :: 0 <= j < |p| ==> (p[j].Complete() <==> j != i)
    requires forall j :: 0 <= j < |p| && p[j].Complete() ==> accepts(p[j].ToCookie())
    ensures |Issued(p, accepts)| == |p| - 1
    ensures Warnings(Trace(p, accepts)) == [Warning(p[i].Label(), p[i].domain)]
  {
    IssuedCount(p, accepts);
    WarningsAreSkips(p, accepts);
    SkipsSingle(p, i);
  }

  lemma {:induction false} SkipsSingle(p: seq<PlannedWrite>, i: nat)
    requires i < |p|
    requires forall j :: 0 <= j < |p| ==> (p[j].Complete() <==> j != i)
    ensures Skips(p) == [Warning(p[i].Label(), p[i].domain)]
  {
    if i == 0 {
      forall w | w in p[1..]
        ensures w.Complete()
      {
        var j :| 0 <= j < |p[1..]| && p[1..][j] == w;
        assert p[1..][j] == p[j + 1];
      }
      NoSkips(p[1..]);
    } else {
      forall j | 0 <= j < |p[1..]|
        ensures p[1..][j].Complete() <==> j != i - 1
      {
        assert p[1..][j] == p[j + 1];
      }
      SkipsSingle(p[1..], i - 1);
    }
  }
}
