# Web-view session cookie manager, modelled in Dafny

This project models `SalesforceWebViewCookieManager` of the Salesforce Mobile SDK hybrid library.
The manager takes a user account's OAuth credentials and writes the session cookies that a
hybrid app's embedded web view needs. They go to up to four Salesforce web surfaces: the main
(instance) domain, Lightning, Content and Visualforce.

`setCookies` works in a fixed way:

- It picks the main session value by token format: the parent sid under `"jwt"`, otherwise the access token.
- It takes the main domain from the instance URL's host. When the URL or its host is absent, the domain is `""`.
- It then makes twelve calls to a per-cookie setter, in a fixed order:
  - main: sid, `clientSrc`, `sid_Client`, `oid`, `eikoocnekotMob` (the CSRF token);
  - Lightning: sid, CSRF;
  - Content: sid;
  - Visualforce: sid, `clientSrc`, `sid_Client`, `oid`.
- Finally it calls its completion handler once.

The setter checks that the domain, name and value are all present. If one is missing, it logs a
warning and does nothing else. Otherwise it builds a cookie with path `/`, `secure` and
`discard` (session-only). If the cookie initializer accepts that cookie, the setter hands it to
the web view's cookie store and logs a debug line.

Files:

- `wrappers.dfy`: `Option`, the model of Swift optionals.
- `cookie_plan.dfy` (module `CookiePlan`): the pure part, with these pieces.
  - The credential record, cookies and log entries.
  - `GetDomainFromUrl` and `MainSid`.
  - `Plan`, the twelve planned setter calls in source order, each built from the per-site and per-kind argument functions.
  - `Issued` and `Trace`: what a sequence of setter calls leaves in the store and in the log.
  - The lemmas about all of these.
- `cookie_manager.dfy` (module `CookieManager`): the stateful part.
  - Classes for the cookie store, the logger and the completion handler.
  - `SetCookieValue` and `SetCookies`. `SetCookies` is written as twelve straight-line calls, as in the source, and is proved to append exactly `Issued(Plan(account))` to the store.
- `cookie_examples.dfy` (module `CookieExamples`): the test suite's accounts, and what the model proves the manager does with them.

The store is modelled as an append-only sequence of the cookies issued to it. The cookie
initializer `HTTPCookie(properties:)` is a foreign, may-fail function: it is modelled as a
parameter `accepts: Cookie -> bool`. The properties hold for every `accepts`; the ones that give an
exact count (`FullAccountIssuesTwelve`, `SingleSkip`, the second clause of `IssuedCount`,
`MissingContentDomain` and `CompleteAccountIssuesTwelve`) assume it accepts every complete write,
and `CompleteAccountScenario` runs with an initializer that accepts every cookie. `AtMostTwelve` and the first clause of `IssuedCount` bound the count
without assuming anything.
The instance URL is modelled after parsing: `Url(host: Option<string>)`. The logger keeps a
sequence of structured entries. The completion handler counts its calls and records the cookies
issued so far when it ran.

## Model

| member | source | states |
|---|---|---|
| CookiePlan.MainSid | libs/SalesforceHybridSDK/SalesforceHybridSDK/Classes/SalesforceWebViewCookieManager.swift:44 | The main session value is the parent sid when the token format is `"jwt"`, and the access token otherwise (a missing format included) |
| CookiePlan.Plan | libs/SalesforceHybridSDK/SalesforceHybridSDK/Classes/SalesforceWebViewCookieManager.swift:55-72 | The manager makes exactly twelve setter calls |
| CookiePlan.MainSidSelection | libs/SalesforceHybridSDK/SalesforceHybridSDK/Classes/SalesforceWebViewCookieManager.swift:44 | The main sid write carries the parent sid when the token format is `"jwt"` and the access token otherwise |
| CookiePlan.GetDomainFromUrl | libs/SalesforceHybridSDK/SalesforceHybridSDK/Classes/SalesforceWebViewCookieManager.swift:99-101 | The main domain is the instance URL's host when both are present, and `""` when the URL or its host is absent |
| CookiePlan.MainDomainNeverMissing | libs/SalesforceHybridSDK/SalesforceHybridSDK/Classes/SalesforceWebViewCookieManager.swift:52 | Every main-domain write has a domain, so a main write with a name and value always passes the setter's guard |
| CookiePlan.PlanEntries | libs/SalesforceHybridSDK/SalesforceHybridSDK/Classes/SalesforceWebViewCookieManager.swift:39-72 | The twelve planned writes, each with its site, kind, domain, name and value drawn from the credential fields as the source passes them |
| CookiePlan.PlanOrder | libs/SalesforceHybridSDK/SalesforceHybridSDK/Classes/SalesforceWebViewCookieManager.swift:54-72 | Exactly twelve writes: main ×5, Lightning ×2, Content ×1, Visualforce ×4, with the kinds in source order |
| CookiePlan.PlanArguments | libs/SalesforceHybridSDK/SalesforceHybridSDK/Classes/SalesforceWebViewCookieManager.swift:40-72 | Writes to one site share one domain, writes of one kind share one name, and writes of one auxiliary kind (client source, session client, org id, CSRF) carry the same value on every site |
| CookiePlan.PlanPlacement | libs/SalesforceHybridSDK/SalesforceHybridSDK/Classes/SalesforceWebViewCookieManager.swift:55-72 | CSRF goes only to main and Lightning; client source, session client and org id only to main and Visualforce; Content gets only its sid; no site gets two sid writes |
| CookiePlan.SidWritesShareName | libs/SalesforceHybridSDK/SalesforceHybridSDK/Classes/SalesforceWebViewCookieManager.swift:49-72 | All four sid writes are named by the credential's one sid cookie name; every other write has a fixed name among the four constants |
| CookiePlan.NoSidNameOnlyAuxiliary | libs/SalesforceHybridSDK/SalesforceHybridSDK/Classes/SalesforceWebViewCookieManager.swift:79-82 | With no sid cookie name, no sid cookie reaches the store, and each auxiliary cookie that is complete and accepted still does |
| CookiePlan.IssuedMembership | libs/SalesforceHybridSDK/SalesforceHybridSDK/Classes/SalesforceWebViewCookieManager.swift:78-97 | A cookie reaches the store if and only if some write asks for it with domain, name and value present and the initializer accepts it |
| CookiePlan.IssuedAreSessionCookies | libs/SalesforceHybridSDK/SalesforceHybridSDK/Classes/SalesforceWebViewCookieManager.swift:84-94 | Every issued cookie has path `/`, is secure and session-only, and was accepted by the initializer |
| CookiePlan.IssuedAppend | libs/SalesforceHybridSDK/SalesforceHybridSDK/Classes/SalesforceWebViewCookieManager.swift:55-72 | The cookies of two consecutive runs of writes are those of each run, concatenated in order |
| CookiePlan.PrefixStep | libs/SalesforceHybridSDK/SalesforceHybridSDK/Classes/SalesforceWebViewCookieManager.swift:55-72 | One more write extends the store and the log by exactly that write's step |
| CookiePlan.TraceAppend | libs/SalesforceHybridSDK/SalesforceHybridSDK/Classes/SalesforceWebViewCookieManager.swift:55-72 | The log of two consecutive runs of writes is the log of each run, concatenated in order |
| CookiePlan.StepsAppendPlan | libs/SalesforceHybridSDK/SalesforceHybridSDK/Classes/SalesforceWebViewCookieManager.swift:55-72 | Calling the setter for the first k writes one after another appends exactly their cookies to the store and their entries to the log |
| CookiePlan.PlanSteps | libs/SalesforceHybridSDK/SalesforceHybridSDK/Classes/SalesforceWebViewCookieManager.swift:35-72 | The plan's cookies and log entries are those of the twelve setter calls made with the credential fields the source reads, in source order |
| CookiePlan.SkipOnlyOwn | libs/SalesforceHybridSDK/SalesforceHybridSDK/Classes/SalesforceWebViewCookieManager.swift:79-82 | A write missing its domain, name or value issues nothing and logs one warning; the other writes' cookies and log are unchanged |
| CookiePlan.PlanSkipOnlyOwn | libs/SalesforceHybridSDK/SalesforceHybridSDK/Classes/SalesforceWebViewCookieManager.swift:55-82 | In the plan, an incomplete write leaves the writes before and after it as they are, and puts one warning with its label and domain in its place |
| CookiePlan.WarningsAreSkips | libs/SalesforceHybridSDK/SalesforceHybridSDK/Classes/SalesforceWebViewCookieManager.swift:79-82 | The warnings in the log are exactly one per incomplete write, in order, each naming the write's label and domain |
| CookiePlan.IssuedCount | libs/SalesforceHybridSDK/SalesforceHybridSDK/Classes/SalesforceWebViewCookieManager.swift:78-97 | Issued cookies plus warnings never exceed the writes; when the initializer accepts every complete write, they add up to exactly the writes |
| CookiePlan.AtMostTwelve | libs/SalesforceHybridSDK/SalesforceHybridSDK/Classes/SalesforceWebViewCookieManager.swift:55-72 | `setCookies` issues at most twelve cookies, whatever is missing or rejected |
| CookiePlan.FullAccountIssuesTwelve | libs/SalesforceHybridSDK/SalesforceHybridSDK/Classes/SalesforceWebViewCookieManager.swift:55-97 | A fully populated account whose cookies are all accepted issues twelve cookies and logs no warning |
| CookiePlan.NoSkips | libs/SalesforceHybridSDK/SalesforceHybridSDK/Classes/SalesforceWebViewCookieManager.swift:79 | Writes that all pass the setter's guard produce no warning |
| CookiePlan.SkipsSingle | libs/SalesforceHybridSDK/SalesforceHybridSDK/Classes/SalesforceWebViewCookieManager.swift:79-82 | When exactly one write misses an argument, the warnings are exactly one, with that write's label and domain |
| CookiePlan.FramingAddsNoWarnings | libs/SalesforceHybridSDK/SalesforceHybridSDK/Classes/SalesforceWebViewCookieManager.swift:37-74 | The start and done log entries around the setter calls add no warning to the log |
| CookiePlan.SingleSkip | libs/SalesforceHybridSDK/SalesforceHybridSDK/Classes/SalesforceWebViewCookieManager.swift:78-97 | When exactly one write misses an argument and every complete write is accepted, all the other writes issue their cookie and the log holds exactly one warning, naming that write |
| CookieManager.CookieStore.SetCookie | libs/SalesforceHybridSDK/SalesforceHybridSDK/Classes/SalesforceWebViewCookieManager.swift:94 | The store gains exactly the given cookie, at the end |
| CookieManager.Completion.Call | libs/SalesforceHybridSDK/SalesforceHybridSDK/Classes/SalesforceWebViewCookieManager.swift:75 | The completion handler's call count goes up by one, and it records the cookies issued so far |
| CookieManager.SetCookieValue | libs/SalesforceHybridSDK/SalesforceHybridSDK/Classes/SalesforceWebViewCookieManager.swift:78-97 | The store gains the cookie with path `/`, secure and discard exactly when domain, name and value are present and the initializer accepts it. The log gains a warning when an argument is missing, a debug entry when the cookie is set, and nothing when it is rejected |
| CookieManager.SetCookies | libs/SalesforceHybridSDK/SalesforceHybridSDK/Classes/SalesforceWebViewCookieManager.swift:35-76 | The store gains exactly `Issued(Plan(account))`, in plan order. The log is the start entry, the plan's step entries, then the done entry. The completion runs exactly once, after the last write |
| CookieExamples.CompleteAccountCalls | libs/SalesforceHybridSDK/SalesforceHybridSDKTests/SalesforceWebViewCookieManagerTestSuite.swift:190-203 | For the test suite's complete account, the twelve setter calls have the expected labels, domains, names and values, in order |
| CookieExamples.JwtAccountUsesParentSid | libs/SalesforceHybridSDK/SalesforceHybridSDKTests/SalesforceWebViewCookieManagerTestSuite.swift:241-245 | For the JWT test account, the "sid for main" call carries `test_parent_sid` |
| CookieExamples.MissingContentDomain | libs/SalesforceHybridSDK/SalesforceHybridSDK/Classes/SalesforceWebViewCookieManager.swift:66 | For the test suite's complete account without a content domain, with every complete write accepted, eleven cookies are issued and the only warning is for the content sid, with no domain |
| CookieExamples.CompleteAccountIssuesTwelve | libs/SalesforceHybridSDK/SalesforceHybridSDKTests/SalesforceWebViewCookieManagerTestSuite.swift:160-212 | The test suite's complete account, under any token format, issues twelve cookies and logs no warning when the initializer accepts its twelve writes |
| CookieExamples.CompleteAccountScenario | libs/SalesforceHybridSDK/SalesforceHybridSDKTests/SalesforceWebViewCookieManagerTestSuite.swift:160-212 | Running `SetCookies` on the complete test account with an initializer that accepts every cookie leaves twelve cookies, all with path `/`, secure and session-only, logs no warning, and runs the completion exactly once, after the last write |

## Left out

- `WKWebsiteDataStore` / `WKHTTPCookieStore` internals are left out. The store is an append-only sequence, so replacing a cookie with the same name and domain, persistence, and the store's asynchronous confirmation are not modelled.
- `HTTPCookie(properties:)` validation is left out. It is a foreign initializer, so it becomes the arbitrary predicate `accepts`, and no rule about which property sets it rejects is assumed. The model does take an accepted property set to be the cookie issued, with domain, name, value, path and flags unchanged (no normalisation); `IssuedAreSessionCookies` and `IssuedMembership` rest on that.
- URL parsing (`URL.host`) is left out. The instance URL is given already parsed, as an optional host.
- The text of log messages is left out, and so is the `String(describing:)` rendering of the user id. The logger records structured entries: the event or the cookie label, the domain (absent stands for `nil`), and the value. The source logs the label's text (`CookieLabel.Text`), which names the site only for sid cookies; the structured label also records the site of the auxiliary cookies, so the model's log tells apart entries that the source's tells apart only by domain.
- `@MainActor` isolation and `@objc` bridging are left out. They are concurrency and runtime plumbing, and the model is sequential.
- How the org id is derived from the account identity is left out: it is a field of `UserAccount`. `OAuthCredentials.update` and `UserAccount` construction are SDK code and are not part of this model.
- `inspectScopes`, the `setCookies(userAccount:setCookieValue:)` overload and the community-URL `setDomain` flag are left out. The test suite calls them, but `SalesforceWebViewCookieManager.swift` has no implementation of them to model.
- The manager keeps no persisted cookie snapshot, never fails and does not observe the store, so there is no reconciliation, typed failure or synchronization monitor to model. It writes every complete cookie that the initializer accepts.
