/** The redirect machine in front of every page: which path each request is sent to, how long following
    the redirects takes, and what a served dashboard page implies. */
module Proxy {
  import opened Wrappers

  datatype Scrape = Limited | Admitted | Refused

  /** What one request reads: the stored facts, its session, and the limiter's and the scrape gate's
      answers. The last four speak about the session's user. */
  datatype Facts = Facts(
    userExists: bool, session: bool, businessNamed: bool, allowed: bool, scrape: Scrape,
    twoFactor: bool, member: bool, mustChangePassword: bool)

  datatype Response =
    | Serve
    | Rewrite
    | TooManyRequests
    | Redirect(path: string, clearsSession: bool)

  // Path predicates.

  predicate StartsWith(path: string, prefix: string) {
    prefix <= path
  }

  function Lower(c: char): char {
    if 'A' <= c <= 'Z' then c - 'A' + 'a' else c
  }

  predicate EndsWithIgnoringCase(path: string, suffix: string) {
    |path| >= |suffix| &&
    forall i | 0 <= i < |suffix| :: Lower(path[|path| - |suffix| + i]) == suffix[i]
  }

  const ASSET_EXTENSIONS: seq<string> := [
    ".png", ".jpg", ".jpeg", ".gif", ".webp", ".svg", ".ico", ".css", ".js", ".map", ".txt", ".xml",
    ".woff", ".woff2", ".ttf", ".eot"
  ]

  predicate IsStaticAsset(path: string) {
    || StartsWith(path, "/_next/")
    || path in {"/favicon.ico", "/logo.png", "/login.jpg"}
    || exists i | 0 <= i < |ASSET_EXTENSIONS| :: EndsWithIgnoringCase(path, ASSET_EXTENSIONS[i])
  }

  predicate IsPublicApiRoute(path: string) {
    || path in {"/api/health", "/api/mcp"}
    || StartsWith(path, "/api/v1/") || StartsWith(path, "/api/auth/")
    || StartsWith(path, "/api/webhooks/")
  }

  predicate IsPublicTokenRoute(path: string) {
    StartsWith(path, "/i/") || StartsWith(path, "/p/") || StartsWith(path, "/c/") || StartsWith(path, "/s/")
  }

  predicate IsInvitationRoute(path: string) {
    StartsWith(path, "/invite/")
  }

  const METRICS := "/api/metrics"

  /** Answered before the state machine, whatever the session. */
  predicate Bypasses(path: string, facts: Facts) {
    || IsStaticAsset(path)
    || (path == METRICS && !facts.scrape.Refused?)
    || IsPublicApiRoute(path) || IsPublicTokenRoute(path) || IsInvitationRoute(path)
  }

  function Lowered(s: string): string {
    seq(|s|, i requires 0 <= i < |s| => if 'A' <= s[i] <= 'Z' then s[i] - 'A' + 'a' else s[i])
  }

  /** The files served to anybody: the framework's own, three by name, and the kinds listed, in either
      case. */
  lemma StaticExactly(path: string)
    ensures IsStaticAsset(path) <==>
      || "/_next/" <= path || path in {"/favicon.ico", "/logo.png", "/login.jpg"}
      || exists extension | extension in ASSET_EXTENSIONS ::
           |path| >= |extension| && Lowered(path[|path| - |extension|..]) == extension
  {
    forall extension | extension in ASSET_EXTENSIONS
      ensures EndsWithIgnoringCase(path, extension) <==>
              |path| >= |extension| && Lowered(path[|path| - |extension|..]) == extension
    {
      EndsExactly(path, extension);
    }
    AnyAmong(path, ASSET_EXTENSIONS);
  }

  lemma AnyAmong(path: string, extensions: seq<string>)
    ensures (exists i | 0 <= i < |extensions| :: EndsWithIgnoringCase(path, extensions[i])) <==>
            exists extension | extension in extensions :: EndsWithIgnoringCase(path, extension)
  {
    if extension :| extension in extensions && EndsWithIgnoringCase(path, extension) {
      var i :| 0 <= i < |extensions| && extensions[i] == extension;
    }
  }

  lemma EndsExactly(path: string, suffix: string)
    ensures EndsWithIgnoringCase(path, suffix) <==>
      |path| >= |suffix| && Lowered(path[|path| - |suffix|..]) == suffix
  {
    if |path| >= |suffix| {
      var end := path[|path| - |suffix|..];
      forall i | 0 <= i < |suffix| ensures Lowered(end)[i] == Lower(path[|path| - |suffix| + i]) {
        assert end[i] == path[|path| - |suffix| + i];
      }
    }
  }

  lemma ExtensionsAreSixteen()
    ensures forall extension :: extension in ASSET_EXTENSIONS <==> extension in {
      ".png", ".jpg", ".jpeg", ".gif", ".webp", ".svg", ".ico", ".css", ".js", ".map", ".txt", ".xml",
      ".woff", ".woff2", ".ttf", ".eot"}
  {
  }

  /** What else passes by the state machine, and what it is answered: the public API always, the token and
      invitation pages as the limiter allows, the metrics as the scrape gate says. Every other path is the
      state machine's. */
  lemma BypassesExactly(path: string, facts: Facts)
    requires !IsStaticAsset(path)
    ensures
      var api := path in {"/api/health", "/api/mcp"}
        || "/api/v1/" <= path || "/api/auth/" <= path || "/api/webhooks/" <= path;
      var limited := "/i/" <= path || "/p/" <= path || "/c/" <= path || "/s/" <= path || "/invite/" <= path;
      Decide(path, facts) ==
        if path == "/api/metrics" && facts.scrape == Scrape.Limited then TooManyRequests
        else if path == "/api/metrics" && facts.scrape == Admitted then Rewrite
        else if api then Serve
        else if limited then if facts.allowed then Serve else TooManyRequests
        else Guard(path, facts)
  {
  }

  lemma StaticIsServed(path: string, facts: Facts)
    requires IsStaticAsset(path)
    ensures Decide(path, facts) == Serve
  {
  }

  // The guard chain.

  function Limited(facts: Facts): Response {
    if facts.allowed then Serve else TooManyRequests
  }

  predicate SetupComplete(facts: Facts) {
    facts.businessNamed && facts.twoFactor
  }

  function Decide(path: string, facts: Facts): Response {
    if IsStaticAsset(path) then Serve
    else if path == METRICS && facts.scrape.Limited? then TooManyRequests
    else if path == METRICS && facts.scrape.Admitted? then Rewrite
    else if IsPublicApiRoute(path) then Serve
    else if IsPublicTokenRoute(path) then Limited(facts)
    else if IsInvitationRoute(path) then Limited(facts)
    else Guard(path, facts)
  }

  function Guard(path: string, facts: Facts): Response {
    if !facts.userExists then
      if path != "/register" then Redirect("/register", false) else Serve
    else if path == "/register" then
      Redirect(if facts.session then "/setup" else "/login", false)
    else if !facts.session then
      if StartsWith(path, "/login") then Serve else Redirect("/login", false)
    else if StartsWith(path, "/login") then Redirect("/setup", false)
    else if !SetupComplete(facts) then
      if path == "/setup" || StartsWith(path, "/api/setup/") then Serve else Redirect("/setup", false)
    else if path == "/setup" then Redirect("/", false)
    else if !facts.member then Redirect("/login", true)
    else if facts.mustChangePassword then
      if StartsWith(path, "/change-password") then Serve else Redirect("/change-password", false)
    else if StartsWith(path, "/change-password") then Redirect("/", false)
    else Serve
  }

  /** What the next request of the same visitor reads. */
  function AfterRedirect(facts: Facts, response: Response): Facts {
    if response.Redirect? && response.clearsSession then facts.(session := false) else facts
  }

  // Termination.

  /** The redirects still ahead. */
  function Remaining(path: string, facts: Facts): nat {
    if !Decide(path, facts).Redirect? then 0
    else if !facts.userExists || !facts.session then 1
    else if !SetupComplete(facts) then 1
    else if path == "/register" || StartsWith(path, "/login") then 3
    else if path == "/setup" then if facts.member && !facts.mustChangePassword then 1 else 2
    else 1
  }

  const TARGETS: set<string> := {"/register", "/setup", "/login", "/", "/change-password"}

  lemma NotAPrefix(path: string, prefix: string, i: nat)
    requires i < |prefix| && (i >= |path| || path[i] != prefix[i])
    ensures !StartsWith(path, prefix)
  {
  }

  lemma TargetIsNoBypass(path: string, facts: Facts)
    requires path in TARGETS
    ensures !Bypasses(path, facts)
  {
    assert |path| > 1 ==> path[1] in {'r', 's', 'l', 'c'} && path[2] in {'e', 'o', 'h'};
    NotAPrefix(path, "/_next/", 1);
    NotAPrefix(path, "/api/v1/", 1);
    NotAPrefix(path, "/api/auth/", 1);
    NotAPrefix(path, "/api/webhooks/", 1);
    NotAPrefix(path, "/i/", 1);
    NotAPrefix(path, "/p/", 1);
    NotAPrefix(path, "/c/", 2);
    NotAPrefix(path, "/s/", 2);
    NotAPrefix(path, "/invite/", 1);
    forall i | 0 <= i < |ASSET_EXTENSIONS| ensures !EndsWithIgnoringCase(path, ASSET_EXTENSIONS[i]) {
      NoTargetIsAnAsset(path, i);
    }
  }

  lemma TargetsAreGuarded(path: string, facts: Facts)
    requires path in TARGETS
    ensures Decide(path, facts) == Guard(path, facts)
  {
    TargetIsNoBypass(path, facts);
  }

  lemma NoTargetIsAnAsset(path: string, i: nat)
    requires path in TARGETS && i < |ASSET_EXTENSIONS|
    ensures !EndsWithIgnoringCase(path, ASSET_EXTENSIONS[i])
  {
    assert forall j | 0 <= j < |path| :: Lower(path[j]) != '.';
    assert ASSET_EXTENSIONS[i][0] == '.';
    if |path| >= |ASSET_EXTENSIONS[i]| {
      assert Lower(path[|path| - |ASSET_EXTENSIONS[i]| + 0]) != ASSET_EXTENSIONS[i][0];
    }
  }

  lemma RedirectsGoToTargets(path: string, facts: Facts)
    ensures Decide(path, facts).Redirect? ==> Decide(path, facts).path in TARGETS
  {
  }

  lemma RedirectsCountDown(path: string, facts: Facts)
    requires Decide(path, facts).Redirect?
    ensures
      var next := Decide(path, facts);
      Remaining(next.path, AfterRedirect(facts, next)) < Remaining(path, facts) <= 3
  {
    RedirectsGoToTargets(path, facts);
    var next := Decide(path, facts);
    assert next == Guard(path, facts);
    TargetsAreGuarded(next.path, AfterRedirect(facts, next));
  }

  datatype Journey = Journey(redirects: nat, lastPath: string, lastFacts: Facts, answer: Response)

  function Follow(path: string, facts: Facts): Journey
    decreases Remaining(path, facts)
  {
    var response := Decide(path, facts);
    if !response.Redirect? then Journey(0, path, facts, response)
    else
      RedirectsCountDown(path, facts);
      var rest := Follow(response.path, AfterRedirect(facts, response));
      rest.(redirects := rest.redirects + 1)
  }

  /** From every path and every combination of facts, at most three redirects lead to an answer, and the
      session is gone by then exactly when a set-up session without a membership reached the guards. */
  lemma {:induction false} FollowEnds(path: string, facts: Facts)
    ensures Follow(path, facts).redirects <= Remaining(path, facts) <= 3
    ensures !Follow(path, facts).answer.Redirect?
    ensures Follow(path, facts).answer == Decide(Follow(path, facts).lastPath, Follow(path, facts).lastFacts)
    ensures Follow(path, facts).lastFacts.session <==>
      facts.session &&
      !(Decide(path, facts).Redirect? && facts.userExists && SetupComplete(facts) && !facts.member)
    decreases Remaining(path, facts)
  {
    var response := Decide(path, facts);
    if response.Redirect? {
      RedirectsCountDown(path, facts);
      RedirectsGoToTargets(path, facts);
      TargetsAreGuarded(response.path, AfterRedirect(facts, response));
      FollowEnds(response.path, AfterRedirect(facts, response));
    }
  }

  // The dashboard.

  predicate IsDashboard(path: string, facts: Facts) {
    && !Bypasses(path, facts) && path != "/register" && path != "/setup"
    && !StartsWith(path, "/login") && !StartsWith(path, "/api/setup/")
    && !StartsWith(path, "/change-password")
  }

  /** A dashboard path is served exactly when all five gates are open. */
  lemma DashboardNeedsEveryGate(path: string, facts: Facts)
    requires IsDashboard(path, facts)
    ensures Decide(path, facts).Serve? <==>
      && facts.userExists && facts.session && facts.businessNamed && facts.twoFactor && facts.member
      && !facts.mustChangePassword
  {
  }

  /** Where each kind of visitor should end up, stage by stage. */
  function Landing(path: string, facts: Facts): string {
    if !facts.userExists then "/register"
    else if !facts.session then if StartsWith(path, "/login") then path else "/login"
    else if !SetupComplete(facts) then if StartsWith(path, "/api/setup/") then path else "/setup"
    else if !facts.member then "/login"
    else if facts.mustChangePassword then
      if StartsWith(path, "/change-password") then path else "/change-password"
    else if IsDashboard(path, facts) || StartsWith(path, "/api/setup/") then path
    else "/"
  }

  /** Whatever guarded page is asked for, following the redirects serves the page of the visitor's
      first unmet stage, or the page itself. */
  lemma {:induction false} VisitorLands(path: string, facts: Facts)
    requires !Bypasses(path, facts)
    ensures Follow(path, facts).answer.Serve? && Follow(path, facts).lastPath == Landing(path, facts)
    decreases Remaining(path, facts)
  {
    var response := Decide(path, facts);
    if response.Redirect? {
      RedirectsCountDown(path, facts);
      LandingStays(path, facts);
      VisitorLands(response.path, AfterRedirect(facts, response));
    }
  }

  /** The page of the visitor's first unmet stage. */
  function Home(facts: Facts): string {
    if !facts.userExists then "/register"
    else if !facts.session then "/login"
    else if !SetupComplete(facts) then "/setup"
    else if !facts.member then "/login"
    else if facts.mustChangePassword then "/change-password"
    else "/"
  }

  lemma TargetsLeadHome(path: string, facts: Facts)
    requires path in TARGETS
    ensures Landing(path, facts) == Home(facts)
  {
    TargetIsNoPrefixed(path);
  }

  lemma RedirectsLeadHome(path: string, facts: Facts)
    requires !Bypasses(path, facts) && Decide(path, facts).Redirect?
    ensures Landing(path, facts) == Home(facts) == Home(AfterRedirect(facts, Decide(path, facts)))
  {
    assert Decide(path, facts) == Guard(path, facts);
  }

  /** A redirect never changes where its visitor ends up. */
  lemma LandingStays(path: string, facts: Facts)
    requires !Bypasses(path, facts) && Decide(path, facts).Redirect?
    ensures
      var next := Decide(path, facts);
      && !Bypasses(next.path, AfterRedirect(facts, next))
      && Landing(next.path, AfterRedirect(facts, next)) == Landing(path, facts)
  {
    var next := Decide(path, facts);
    RedirectsGoToTargets(path, facts);
    TargetIsNoBypass(next.path, AfterRedirect(facts, next));
    RedirectsLeadHome(path, facts);
    TargetsLeadHome(next.path, AfterRedirect(facts, next));
  }

  lemma TargetIsNoPrefixed(path: string)
    requires path in TARGETS
    ensures !StartsWith(path, "/api/setup/")
    ensures StartsWith(path, "/login") <==> path == "/login"
    ensures StartsWith(path, "/change-password") <==> path == "/change-password"
  {
    assert |path| > 1 ==> path[1] in {'r', 's', 'l', 'c'};
    NotAPrefix(path, "/api/setup/", 1);
    if path != "/login" { NotAPrefix(path, "/login", 1); }
    if path != "/change-password" { NotAPrefix(path, "/change-password", 1); }
  }

  // Why the cookie has to go.

  /** The same machine with the session left in place on every redirect. */
  function KeepingSession(path: string, facts: Facts, steps: nat): Response
    decreases steps
  {
    var response := Decide(path, facts);
    if steps == 0 || !response.Redirect? then response
    else KeepingSession(response.path, facts, steps - 1)
  }

  /** A set-up session without a membership would then be redirected for ever. */
  lemma {:induction false} WithoutClearingLoops(path: string, facts: Facts, steps: nat)
    requires facts.userExists && facts.session && SetupComplete(facts) && !facts.member
    requires !Bypasses(path, facts)
    ensures KeepingSession(path, facts, steps).Redirect?
    decreases steps
  {
    if steps > 0 {
      var next := Decide(path, facts).path;
      RedirectsGoToTargets(path, facts);
      TargetIsNoBypass(next, facts);
      WithoutClearingLoops(next, facts, steps - 1);
    }
  }
}
