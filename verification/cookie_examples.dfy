/**
 * The accounts of the cookie manager's test suite and what the model says
 * the manager does with them.
 */
module CookieExamples {
  import opened Wrappers
  import opened CookiePlan
  import opened CookieManager

  /** The fully populated test account, under the given token format. */
  function TestAccount(tokenFormat: string): UserAccount {
    UserAccount(
      Credentials(
        userId := Some("test_user_id"),
        instanceUrl := Some(Url(Some("test.salesforce.com"))),
        lightningDomain := Some("lightning.test.salesforce.com"),
        lightningSid := Some("test_lightning_sid"),
        contentDomain := Some("content.test.salesforce.com"),
        contentSid := Some("test_content_sid"),
        accessToken := Some("test_auth_token"),
        parentSid := Some("test_parent_sid"),
        tokenFormat := Some(tokenFormat),
        vfDomain := Some("vf.test.salesforce.com"),
        vfSid := Some("test_vf_sid"),
        cookieClientSrc := Some("test_client_src"),
        cookieSidClient := Some("test_sid_client"),
        sidCookieName := Some("sid"),
        csrfToken := Some("test_csrf_token")),
      Some("test_org_id"))
  }

  /** A setter call as the test suite records it. */
  datatype CookieCall = CookieCall(cookieType: string, domain: Option<string>, name: Option<string>, value: Option<string>)

  function Calls(p: seq<PlannedWrite>): seq<CookieCall> {
    seq(|p|, i requires 0 <= i < |p| => CookieCall(p[i].Label().Text(), p[i].domain, p[i].name, p[i].value))
  }

  /** The twelve setter calls the test suite expects for the complete account. */
  lemma CompleteAccountCalls()
    ensures Calls(Plan(TestAccount("access_token"))) == [
      CookieCall("sid for main", Some("test.salesforce.com"), Some("sid"), Some("test_auth_token")),
      CookieCall("clientSrc", Some("test.salesforce.com"), Some("clientSrc"), Some("test_client_src")),
      CookieCall("sid_Client", Some("test.salesforce.com"), Some("sid_Client"), Some("test_sid_client")),
      CookieCall("oid", Some("test.salesforce.com"), Some("oid"), Some("test_org_id")),
      CookieCall("eikoocnekotMob", Some("test.salesforce.com"), Some("eikoocnekotMob"), Some("test_csrf_token")),
      CookieCall("sid for lightning", Some("lightning.test.salesforce.com"), Some("sid"), Some("test_lightning_sid")),
      CookieCall("eikoocnekotMob", Some("lightning.test.salesforce.com"), Some("eikoocnekotMob"), Some("test_csrf_token")),
      CookieCall("sid for content", Some("content.test.salesforce.com"), Some("sid"), Some("test_content_sid")),
      CookieCall("sid for vf", Some("vf.test.salesforce.com"), Some("sid"), Some("test_vf_sid")),
      CookieCall("clientSrc", Some("vf.test.salesforce.com"), Some("clientSrc"), Some("test_client_src")),
      CookieCall("sid_Client", Some("vf.test.salesforce.com"), Some("sid_Client"), Some("test_sid_client")),
      CookieCall("oid", Some("vf.test.salesforce.com"), Some("oid"), Some("test_org_id"))]
  {
    PlanEntries(TestAccount("access_token"));
  }

  /** Under the JWT token format the main sid call carries the parent sid. */
  lemma JwtAccountUsesParentSid()
    ensures var main := Calls(Plan(TestAccount("jwt")))[0];
      main.cookieType == "sid for main" && main.value == Some("test_parent_sid")
  {
    PlanEntries(TestAccount("jwt"));
  }

  /** The complete test account with its content domain removed. */
  function NoContentAccount(): UserAccount {
    TestAccount("access_token").(credentials := TestAccount("access_token").credentials.(contentDomain := None))
  }

  /**
   * Without a content domain only the content sid is skipped: when the
   * initializer accepts the other writes, eleven cookies are issued and the
   * one warning names the content sid.
   */
  lemma MissingContentDomain(accepts: Cookie -> bool)
    requires forall w :: w in Plan(NoContentAccount()) && w.Complete() ==> accepts(w.ToCookie())
    ensures |Issued(Plan(NoContentAccount()), accepts)| == 11
    ensures Warnings(Trace(Plan(NoContentAccount()), accepts)) == [Warning(CookieLabel(Content, Sid), None)]
  {
    var p := Plan(NoContentAccount());
    PlanEntries(NoContentAccount());
    forall j | 0 <= j < |p| && p[j].Complete()
      ensures accepts(p[j].ToCookie())
    {
      assert p[j] in p;
    }
    SingleSkip(p, 7, accepts);
  }

  /**
   * The complete test account, under any token format, issues all twelve
   * cookies and logs no warning when the initializer accepts them.
   */
  lemma CompleteAccountIssuesTwelve(tokenFormat: string, accepts: Cookie -> bool)
    requires forall w :: w in Plan(TestAccount(tokenFormat)) && w.Complete() ==> accepts(w.ToCookie())
    ensures |Issued(Plan(TestAccount(tokenFormat)), accepts)| == 12
    ensures Warnings(Trace(Plan(TestAccount(tokenFormat)), accepts)) == []
  {
    PlanEntries(TestAccount(tokenFormat));
    FullAccountIssuesTwelve(TestAccount(tokenFormat), accepts);
  }

  /**
   * The complete test account, with every cookie accepted: twelve session
   * cookies reach the store, no warning is logged, and the completion runs
   * once, after the last write.
   */
  method CompleteAccountScenario(tokenFormat: string) returns (issued: seq<Cookie>, warnings: seq<LogEntry>, calls: nat, observed: seq<Cookie>)
    ensures |issued| == 12
    ensures forall c :: c in issued ==> c.path == "/" && c.secure && c.discard
    ensures warnings == []
    ensures calls == 1 && observed == issued
  {
    var store := new CookieStore();
    var log := new Logger();
    var completion := new Completion();
    var account := TestAccount(tokenFormat);
    var acceptAll := (c: Cookie) => true;
    CompleteAccountIssuesTwelve(tokenFormat, acceptAll);
    IssuedAreSessionCookies(Plan(account), acceptAll);
    SetCookies(account, store, log, acceptAll, completion);
    FramingAddsNoWarnings([], account.credentials.userId, Trace(Plan(account), acceptAll));
    issued, warnings, calls, observed := store.cookies, Warnings(log.entries), completion.calls, completion.observed;
  }
}
