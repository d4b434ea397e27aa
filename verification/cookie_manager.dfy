/**
 * The stateful part of the web-view session cookie manager: the cookie
 * store it writes to, the log it reports to, the completion it fires, and
 * the two methods that issue the twelve writes one after another.
 */
module CookieManager {
  import opened Wrappers
  import opened CookiePlan

  /** The web view's cookie store, seen as the log of cookies issued to it. */
  class CookieStore {
    var cookies: seq<Cookie>

    constructor ()
      ensures cookies == []
    {
      cookies := [];
    }

    method SetCookie(c: Cookie)
      modifies this
      ensures cookies == old(cookies) + [c]
    {
      cookies := cookies + [c];
    }
  }

  /** The logging sink: every message it has received, in order. */
  class Logger {
    var entries: seq<LogEntry>

    constructor ()
      ensures entries == []
    {
      entries := [];
    }

    method Log(e: LogEntry)
      modifies this
      ensures entries == old(entries) + [e]
    {
      entries := entries + [e];
    }
  }

  /**
   * The caller's completion handler: how often it has run, and the cookies
   * issued so far when it last ran.
   */
  class Completion {
    var calls: nat
    var observed: seq<Cookie>

    constructor ()
      ensures calls == 0 && observed == []
    {
      calls, observed := 0, [];
    }

    method Call(store: CookieStore)
      modifies this
      ensures calls == old(calls) + 1
      ensures observed == store.cookies
    {
      calls := calls + 1;
      observed := store.cookies;
    }
  }

  /**
   * Issues one cookie when domain, name and value are all present and the
   * cookie initializer (`accepts`) takes the property set; otherwise the
   * store is left as it was. A missing argument is reported as a warning.
   */
  method SetCookieValue(store: CookieStore, log: Logger, accepts: Cookie -> bool,
                        cookieType: CookieLabel, domain: Option<string>, name: Option<string>, value: Option<string>)
    modifies store, log
    ensures store.cookies == old(store.cookies) + Attempt(domain, name, value, accepts)
    ensures log.entries == old(log.entries) + StepLog(cookieType, domain, name, value, accepts)
  {
    if domain.None? || name.None? || value.None? {
      log.Log(Warning(cookieType, domain));
      return;
    }
    var cookie := Properties(domain.value, name.value, value.value);
    if accepts(cookie) {
      store.SetCookie(cookie);
      log.Log(Debug(cookieType, domain.value, value.value));
    }
  }

  /**
   * Writes the session cookies of `account` to the store, one setter call
   * per planned write and in plan order, then runs `completion` once.
   */
  method SetCookies(account: UserAccount, store: CookieStore, log: Logger, accepts: Cookie -> bool, completion: Completion)
    modifies store, log, completion
    ensures store.cookies == old(store.cookies) + Issued(Plan(account), accepts)
    ensures log.entries == old(log.entries)
      + [Info(SettingCookies, account.credentials.userId)]
      + Trace(Plan(account), accepts)
      + [Info(DoneSettingCookies, account.credentials.userId)]
    ensures completion.calls == old(completion.calls) + 1
    ensures completion.observed == store.cookies
  {
    var creds := account.credentials;
    log.Log(Info(SettingCookies, creds.userId));
    var instanceUrl := creds.instanceUrl;
    var lightningDomain := creds.lightningDomain;
    var lightningSid := creds.lightningSid;
    var contentDomain := creds.contentDomain;
    var contentSid := creds.contentSid;
    var mainSid := MainSid(creds);
    var vfDomain := creds.vfDomain;
    var vfSid := creds.vfSid;
    var clientSrc := creds.cookieClientSrc;
    var sidClient := creds.cookieSidClient;
    var sidCookieName := creds.sidCookieName;
    var csrfToken := creds.csrfToken;
    var orgId := account.orgId;
    var mainDomain := Some(GetDomainFromUrl(instanceUrl));

    PlanSteps(account, accepts, store.cookies, log.entries);

    // Main domain cookies
    SetCookieValue(store, log, accepts, CookieLabel(Main, Sid), mainDomain, sidCookieName, mainSid);
    SetCookieValue(store, log, accepts, CookieLabel(Main, ClientSrc), mainDomain, Some(CLIENT_SRC), clientSrc);
    SetCookieValue(store, log, accepts, CookieLabel(Main, SidClient), mainDomain, Some(SID_CLIENT), sidClient);
    SetCookieValue(store, log, accepts, CookieLabel(Main, OrgId), mainDomain, Some(ORG_ID), orgId);
    SetCookieValue(store, log, accepts, CookieLabel(Main, Csrf), mainDomain, Some(CSRF_TOKEN_COOKIE_NAME), csrfToken);

    // Lightning domain cookies
    SetCookieValue(store, log, accepts, CookieLabel(Lightning, Sid), lightningDomain, sidCookieName, lightningSid);
    SetCookieValue(store, log, accepts, CookieLabel(Lightning, Csrf), lightningDomain, Some(CSRF_TOKEN_COOKIE_NAME), csrfToken);

    // Content domain cookies
    SetCookieValue(store, log, accepts, CookieLabel(Content, Sid), contentDomain, sidCookieName, contentSid);

    // Visualforce domain cookies
    SetCookieValue(store, log, accepts, CookieLabel(Visualforce, Sid), vfDomain, sidCookieName, vfSid);
    SetCookieValue(store, log, accepts, CookieLabel(Visualforce, ClientSrc), vfDomain, Some(CLIENT_SRC), clientSrc);
    SetCookieValue(store, log, accepts, CookieLabel(Visualforce, SidClient), vfDomain, Some(SID_CLIENT), sidClient);
    SetCookieValue(store, log, accepts, CookieLabel(Visualforce, OrgId), vfDomain, Some(ORG_ID), orgId);

    log.Log(Info(DoneSettingCookies, creds.userId));
    completion.Call(store);
  }
}
