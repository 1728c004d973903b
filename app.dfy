/** The application shell of src/App.js: the session guard (ProtectedRoute), the
    route table of the App component, the Layout's role-gated navigation links,
    its sidebar toggle and logout. Storage is the browser's localStorage as a map;
    the router is modelled by what a path resolves to. */
module App {
  import opened Common

  datatype Page =
    | LoginPage | RegisterPage | DashboardPage | AccountsPage
    | InvoicesPage | UsersPage | AuditLogsPage

  /** The element a <Route> of the table renders. */
  datatype Element =
    | Unguarded(page: Page)        // the page on its own
    | Guarded(page: Page)          // <ProtectedRoute><Layout><page/></Layout></ProtectedRoute>
    | RedirectTo(target: string)   // <Navigate to=target/>

  /** What the router shows for a location. */
  datatype View =
    | Render(page: Page, inLayout: bool)
    | NavigateTo(path: string)
    | NoMatch

  const LoginPath: string := "/login"

  /** The <Route>s of the App component (src/App.js:80-132), in order. */
  const Routes: seq<(string, Element)> := [
    ("/login", Unguarded(LoginPage)),
    ("/register", Unguarded(RegisterPage)),
    ("/dashboard", Guarded(DashboardPage)),
    ("/accounts", Guarded(AccountsPage)),
    ("/invoices", Guarded(InvoicesPage)),
    ("/users", Guarded(UsersPage)),
    ("/audit-logs", Guarded(AuditLogsPage)),
    ("/", RedirectTo("/dashboard"))
  ]

  /** The paths whose element is wrapped in ProtectedRoute. */
  const ProtectedPaths: set<string> := {"/dashboard", "/accounts", "/invoices", "/users", "/audit-logs"}

  // ---------------------------------------------------------------------------
  // Route matching. React Router compares a location with a route's path
  // case-insensitively, and accepts any number of trailing slashes.

  /** toLowerCase on one character, for ASCII letters. */
  function LowerChar(c: char): char {
    if 'A' <= c <= 'Z' then (c as int + 32) as char else c
  }

  /** toLowerCase, restricted to ASCII. */
  function LowerAscii(s: string): string {
    seq(|s|, i requires 0 <= i < |s| => LowerChar(s[i]))
  }

  /** `s` without its trailing slashes. */
  function StripTrailingSlashes(s: string): (r: string)
    ensures |r| <= |s| && r == s[..|r|]
    ensures r == [] || r[|r| - 1] != '/'
    ensures forall i :: |r| <= i < |s| ==> s[i] == '/'
    decreases |s|
  {
    if s != [] && s[|s| - 1] == '/' then StripTrailingSlashes(s[..|s| - 1]) else s
  }

  /** What the router compares: the text without trailing slashes, lower-cased. */
  function RouteKey(path: string): string {
    LowerAscii(StripTrailingSlashes(path))
  }

  predicate RouteMatches(pattern: string, path: string) {
    RouteKey(pattern) == RouteKey(path)
  }

  /** The element of the first route of `routes` that matches `path`. */
  function FindRoute(routes: seq<(string, Element)>, path: string): (r: Option<Element>)
    ensures r.None? <==> forall i :: 0 <= i < |routes| ==> !RouteMatches(routes[i].0, path)
    ensures r.Some? ==> exists i :: 0 <= i < |routes| && RouteMatches(routes[i].0, path) && r.value == routes[i].1
  {
    if routes == [] then None
    else if RouteMatches(routes[0].0, path) then Some(routes[0].1)
    else
      var r := FindRoute(routes[1..], path);
      assert forall i :: 1 <= i < |routes| ==> routes[1..][i - 1] == routes[i];
      r
  }

  /** Each route of the table is the one its own path selects: no earlier route
      matches it. */
  lemma TableRoutes()
    ensures forall i :: 0 <= i < |Routes| ==> FindRoute(Routes, Routes[i].0) == Some(Routes[i].1)
  {
    forall i | 0 <= i < |Routes| ensures FindRoute(Routes, Routes[i].0) == Some(Routes[i].1) {
      RouteSelected(i);
    }
  }

  lemma RouteSelected(i: nat)
    requires i < |Routes|
    ensures FindRoute(Routes, Routes[i].0) == Some(Routes[i].1)
  {
    TableKeys();
    FirstMatch(Routes, i, Routes[i].0);
  }

  /** At most one route matches any location, so the first match is also the
      route React Router's ranking picks, whatever the order of the table. */
  lemma AtMostOneMatch(path: string, i: nat, j: nat)
    requires i < |Routes| && j < |Routes|
    requires RouteMatches(Routes[i].0, path) && RouteMatches(Routes[j].0, path)
    ensures i == j
  {
    if i < j {
      DistinctKeys(i, j);
    } else if j < i {
      DistinctKeys(j, i);
    }
  }

  /** The keys of the table are pairwise distinct: they differ in length or in
      their first letter. */
  lemma DistinctKeys(i: nat, j: nat)
    requires i < j < |Routes|
    ensures RouteKey(Routes[i].0) != RouteKey(Routes[j].0)
  {
    TableKeys();
    if j == 7 {
      assert |Routes[i].0| > 0;
    } else {
      assert |Routes[i].0| != |Routes[j].0| || Routes[i].0[1] != Routes[j].0[1];
    }
  }

  /** The route paths of the table are lower-case and have no trailing slash, so
      each is its own key, except "/", whose key is empty. */
  lemma TableKeys()
    ensures forall i :: 0 <= i < 7 ==> RouteKey(Routes[i].0) == Routes[i].0
    ensures RouteKey(Routes[7].0) == []
  {
    forall i | 0 <= i < 7 ensures RouteKey(Routes[i].0) == Routes[i].0 {
      OwnKey(Routes[i].0);
    }
    assert StripTrailingSlashes("/") == StripTrailingSlashes([]);
  }

  lemma OwnKey(p: string)
    requires p != [] && p[|p| - 1] != '/'
    requires forall i :: 0 <= i < |p| ==> !('A' <= p[i] <= 'Z')
    ensures RouteKey(p) == p
  {
  }

  /** `path` selects the route at `k` when that route matches and no earlier one does. */
  lemma {:induction false} FirstMatch(routes: seq<(string, Element)>, k: nat, path: string)
    requires k < |routes| && RouteMatches(routes[k].0, path)
    requires forall j :: 0 <= j < k ==> !RouteMatches(routes[j].0, path)
    ensures FindRoute(routes, path) == Some(routes[k].1)
    decreases k
  {
    if k > 0 {
      assert !RouteMatches(routes[0].0, path);
      assert forall j :: 0 <= j < k - 1 ==> routes[1..][j] == routes[j + 1];
      FirstMatch(routes[1..], k - 1, path);
    }
  }

  /** The view ProtectedRoute gives: its children (the page inside Layout) when a
      truthy token is stored, otherwise a redirect to the login route. */
  function ProtectedRoute(s: Storage, page: Page): View
  {
    if Token(s).Some? then Render(page, true) else NavigateTo(LoginPath)
  }

  /** What the router shows at `path` for the storage `s`. */
  function Resolve(s: Storage, path: string): (v: View)
    ensures v.NoMatch? <==> forall i :: 0 <= i < |Routes| ==> !RouteMatches(Routes[i].0, path)
    ensures v.Render? && v.inLayout ==> FindRoute(Routes, path).value.Guarded?
  {
    Show(s, FindRoute(Routes, path))
  }

  /** The view of the route found for a location, if any. */
  function Show(s: Storage, found: Option<Element>): View {
    match found
    case None => NoMatch
    case Some(Unguarded(page)) => Render(page, false)
    case Some(Guarded(page)) => ProtectedRoute(s, page)
    case Some(RedirectTo(target)) => NavigateTo(target)
  }

  /** A location the token guard protects: one whose route is wrapped in ProtectedRoute. */
  predicate IsProtected(path: string) {
    FindRoute(Routes, path).Some? && FindRoute(Routes, path).value.Guarded?
  }

  /** The five pages wrapped in ProtectedRoute are the protected locations; the
      login, register and root routes are not. */
  lemma ProtectedPathsAreProtected()
    ensures IsProtected("/dashboard") && IsProtected("/accounts") && IsProtected("/invoices")
    ensures IsProtected("/users") && IsProtected("/audit-logs")
    ensures !IsProtected("/login") && !IsProtected("/register") && !IsProtected("/")
  {
    RouteSelected(0);
    RouteSelected(1);
    RouteSelected(2);
    RouteSelected(3);
    RouteSelected(4);
    RouteSelected(5);
    RouteSelected(6);
    RouteSelected(7);
  }

  /** The guard: a protected location renders its page inside Layout exactly when
      the "token" entry is present and non-empty, and otherwise redirects to the
      login route. An empty stored token counts as no session. */
  lemma GuardNeedsNonEmptyToken(s: Storage, path: string)
    requires IsProtected(path)
    ensures Resolve(s, path).Render? <==> TokenKey in s && s[TokenKey] != ""
    ensures Resolve(s, path).Render? ==> Resolve(s, path) == Render(FindRoute(Routes, path).value.page, true)
    ensures !Resolve(s, path).Render? ==> Resolve(s, path) == NavigateTo(LoginPath)
  {
  }

  /** Only the key is compared: two locations with the same key show the same view. */
  lemma {:induction false} SameKeySameRoute(routes: seq<(string, Element)>, a: string, b: string)
    requires RouteKey(a) == RouteKey(b)
    ensures FindRoute(routes, a) == FindRoute(routes, b)
    decreases |routes|
  {
    if routes != [] {
      SameKeySameRoute(routes[1..], a, b);
    }
  }

  /** A trailing slash does not change what a location shows. */
  lemma TrailingSlashIgnored(s: Storage, path: string)
    ensures Resolve(s, path + "/") == Resolve(s, path)
  {
    assert (path + "/")[..|path|] == path;
    assert StripTrailingSlashes(path + "/") == StripTrailingSlashes(path);
    SameKeySameView(s, path + "/", path);
  }

  lemma SameKeySameView(s: Storage, a: string, b: string)
    requires RouteKey(a) == RouteKey(b)
    ensures Resolve(s, a) == Resolve(s, b)
  {
    SameKeySameRoute(Routes, a, b);
  }

  /** Letter case does not change what a location shows: two locations that agree
      up to ASCII case resolve to the same view. */
  lemma CaseIgnored(s: Storage, a: string, b: string)
    requires |a| == |b| && forall i :: 0 <= i < |a| ==> LowerChar(a[i]) == LowerChar(b[i])
    ensures Resolve(s, a) == Resolve(s, b)
  {
    StripSameCase(a, b);
    SameKeySameView(s, a, b);
  }

  lemma {:induction false} StripSameCase(a: string, b: string)
    requires |a| == |b| && forall i :: 0 <= i < |a| ==> LowerChar(a[i]) == LowerChar(b[i])
    ensures RouteKey(a) == RouteKey(b)
    decreases |a|
  {
    if a != [] && a[|a| - 1] == '/' {
      assert b[|b| - 1] == '/';
      StripSameCase(a[..|a| - 1], b[..|b| - 1]);
    } else if a != [] {
      assert b[|b| - 1] != '/';
    }
  }

  /** The view after following at most `hops` redirects from `path`. */
  function Settle(s: Storage, path: string, hops: nat): View
    decreases hops
  {
    var v := Resolve(s, path);
    if v.NavigateTo? && hops > 0 then Settle(s, v.path, hops - 1) else v
  }

  /** Every location a route matches settles on a rendered page within two
      redirects: the table has no redirect cycle. Without a token every such
      location except the register page ends on the login page; with one, every
      guarded location ends on its own page, and "/" on the dashboard. */
  lemma EveryRouteSettles(s: Storage, path: string)
    requires FindRoute(Routes, path).Some?
    ensures Settle(s, path, 2).Render?
    ensures Token(s).None? && FindRoute(Routes, path) != Some(Unguarded(RegisterPage)) ==>
      Settle(s, path, 2) == Render(LoginPage, false)
    ensures Token(s).Some? && FindRoute(Routes, path).value.RedirectTo? ==>
      Settle(s, path, 2) == Render(DashboardPage, true)
    ensures Token(s).Some? && IsProtected(path) ==>
      Settle(s, path, 2) == Render(FindRoute(Routes, path).value.page, true)
  {
    FoundElement(path);
    match FindRoute(Routes, path).value
    case Unguarded(page) =>
      assert Settle(s, path, 2) == Render(page, false);
    case Guarded(page) =>
      if Token(s).None? {
        LoginRoute(s);
        assert Settle(s, path, 2) == Settle(s, LoginPath, 1);
      }
    case RedirectTo(target) =>
      DashboardRoute(s);
      assert Settle(s, path, 2) == Settle(s, "/dashboard", 1);
      if Token(s).None? {
        LoginRoute(s);
        assert Settle(s, "/dashboard", 1) == Settle(s, LoginPath, 0);
      }
  }

  /** The elements a location can select: an unguarded page is the login or the
      register page, and the only redirect goes to the dashboard. */
  lemma FoundElement(path: string)
    requires FindRoute(Routes, path).Some?
    ensures var e := FindRoute(Routes, path).value;
      (e.Unguarded? ==> e.page == LoginPage || e.page == RegisterPage)
      && (e.RedirectTo? ==> e.target == "/dashboard")
  {
    var i :| 0 <= i < |Routes| && RouteMatches(Routes[i].0, path) && FindRoute(Routes, path).value == Routes[i].1;
    TableElement(i);
  }

  lemma TableElement(i: nat)
    requires i < |Routes|
    ensures var e := Routes[i].1;
      (e.Unguarded? ==> e.page == LoginPage || e.page == RegisterPage)
      && (e.RedirectTo? ==> e.target == "/dashboard")
  {
  }

  /** The login location shows the login page, outside Layout. */
  lemma LoginRoute(s: Storage)
    ensures Resolve(s, LoginPath) == Render(LoginPage, false)
  {
    RouteSelected(0);
  }

  /** The dashboard location is guarded by the token. */
  lemma DashboardRoute(s: Storage)
    ensures Resolve(s, "/dashboard") == ProtectedRoute(s, DashboardPage)
  {
    RouteSelected(2);
  }

  /** The guard never inspects the token: any two non-empty tokens resolve every
      location to the same view. */
  lemma TokenContentIrrelevant(s1: Storage, s2: Storage, path: string)
    requires Token(s1).Some? && Token(s2).Some?
    ensures Resolve(s1, path) == Resolve(s2, path)
  {
  }

  /** The stored user record plays no part in routing: the admin pages are guarded
      by the token alone, so any signed-in user reaches /users and /audit-logs
      whatever its role. */
  lemma RoutingIgnoresUser(s: Storage, user: string, path: string)
    ensures Resolve(s[UserKey := user], path) == Resolve(s, path)
    ensures Resolve(s - {UserKey}, path) == Resolve(s, path)
  {
    assert Token(s[UserKey := user]) == Token(s);
    assert Token(s - {UserKey}) == Token(s);
  }

  // ---------------------------------------------------------------------------
  // Layout (src/App.js:17-74)

  /** A parsed JSON user object, with its string-valued fields. */
  type UserRecord = map<string, string>

  /** JSON.parse(localStorage.getItem("user") || "{}"): a missing or empty entry
      reads as the empty object; any other entry goes through `parse`, standing
      for JSON.parse. */
  function CurrentUser(s: Storage, parse: string -> UserRecord): UserRecord
  {
    match TruthyItem(s, UserKey)
    case Some(text) => parse(text)
    case None => map[]
  }

  /** user.role === "Admin": an exact, case-sensitive comparison. */
  predicate IsAdmin(u: UserRecord) {
    "role" in u && u["role"] == "Admin"
  }

  /** The sidebar's links, in order; the last two only for an administrator. */
  function NavLinks(s: Storage, parse: string -> UserRecord): (links: seq<string>)
    ensures 3 <= |links| && links[..3] == ["/dashboard", "/accounts", "/invoices"]
    ensures ("/users" in links) <==> IsAdmin(CurrentUser(s, parse))
    ensures ("/audit-logs" in links) <==> IsAdmin(CurrentUser(s, parse))
    ensures forall l :: l in links ==> l in ProtectedPaths
    ensures |links| == if IsAdmin(CurrentUser(s, parse)) then 5 else 3
  {
    ["/dashboard", "/accounts", "/invoices"]
      + (if IsAdmin(CurrentUser(s, parse)) then ["/users", "/audit-logs"] else [])
  }

  /** The admin links follow the stored user entry alone: they show exactly when
      a non-empty "user" entry is stored and parses to a record whose role is
      "Admin". */
  lemma AdminLinksFollowStoredRole(s: Storage, parse: string -> UserRecord)
    ensures ("/users" in NavLinks(s, parse)) <==>
      UserKey in s && s[UserKey] != "" && IsAdmin(parse(s[UserKey]))
    ensures NavLinks(s[TokenKey := ""], parse) == NavLinks(s, parse)
  {
    assert TruthyItem(s[TokenKey := ""], UserKey) == TruthyItem(s, UserKey);
  }

  /** Without a stored user no admin link shows, and the lower-case role "admin"
      hides them as well. */
  lemma NoUserNoAdminLinks(s: Storage, parse: string -> UserRecord, other: UserRecord)
    requires UserKey !in s
    requires "role" in other && other["role"] == "admin"
    ensures "/users" !in NavLinks(s, parse) && "/audit-logs" !in NavLinks(s, parse)
    ensures !IsAdmin(other)
  {
  }

  /** The session entries removed by logout. */
  function ClearSession(s: Storage): (t: Storage)
    ensures t.Keys == s.Keys - {TokenKey, UserKey}
    ensures forall k :: k in t ==> t[k] == s[k]
    ensures Token(t).None?
  {
    s - {TokenKey, UserKey}
  }

  /** After logout every protected location redirects to the login page. */
  lemma LogoutLocksProtectedRoutes(s: Storage, path: string)
    requires IsProtected(path)
    ensures Resolve(ClearSession(s), path) == NavigateTo(LoginPath)
  {
  }

  /** The browser window: its storage and its location. */
  class Browser {
    var storage: Storage
    var location: string

    constructor (storage: Storage, location: string)
      ensures this.storage == storage && this.location == location
    {
      this.storage := storage;
      this.location := location;
    }
  }

  /** The Layout component's own state. */
  class Layout {
    var sidebarOpen: bool

    constructor ()
      ensures sidebarOpen
    {
      sidebarOpen := true;
    }

    /** The ☰ button flips the sidebar. */
    method ToggleSidebar()
      modifies this
      ensures sidebarOpen == !old(sidebarOpen)
    {
      sidebarOpen := !sidebarOpen;
    }

    /** handleLogout: removes the token and the user record, and sends the
        window to the login page. */
    method Logout(b: Browser)
      modifies b
      ensures b.storage == ClearSession(old(b.storage))
      ensures b.location == LoginPath
      ensures sidebarOpen == old(sidebarOpen)
    {
      b.storage := b.storage - {TokenKey};
      b.storage := b.storage - {UserKey};
      b.location := LoginPath;
    }
  }
}
