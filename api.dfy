/** The request-description layer of src/services/api.js: the shared client's base
    URL and default headers, the interceptor that attaches the bearer token, and the
    endpoint table that maps every operation of the `*API` objects to an HTTP method,
    a path relative to the base URL, query parameters and a body. Requests are
    described, never sent. */
module Api {
  import opened Common

  datatype Method = Get | Post | Put | Delete

  /** What one call of an `*API` function hands to the client. `B` is the type of
      the request body the caller supplies (a form draft, for example). */
  datatype Request<B> = Request(verb: Method, path: string, params: map<string, int>, body: Option<B>)

  // ---------------------------------------------------------------------------
  // Base URL and default headers (src/services/api.js:3-11)

  const DefaultBaseUrl: string := "http://localhost:5000/api"

  /** The base URL: the REACT_APP_API_URL build variable when it is set and
      non-empty, otherwise the local development server. */
  function BaseUrl(env: Option<string>): string
  {
    if env.Some? && env.value != "" then env.value else DefaultBaseUrl
  }

  const DefaultHeaders: map<string, string> := map["Content-Type" := "application/json"]

  // ---------------------------------------------------------------------------
  // The request interceptor (src/services/api.js:14-20)

  const AuthorizationHeader: string := "Authorization"

  /** The headers after the interceptor ran on `headers` with the storage `s`. */
  function BearerHeaders(headers: map<string, string>, s: Storage): (h: map<string, string>)
    ensures Token(s).Some? ==> AuthorizationHeader in h && h[AuthorizationHeader] == "Bearer " + Token(s).value
    ensures Token(s).None? ==> h == headers
    ensures forall k :: k != AuthorizationHeader ==> (k in h <==> k in headers)
    ensures forall k :: k in h && k != AuthorizationHeader ==> h[k] == headers[k]
  {
    match Token(s)
    case Some(t) => headers[AuthorizationHeader := "Bearer " + t]
    case None => headers
  }

  /** The interceptor never touches a header other than Authorization, so the
      client's JSON content type survives it whatever the storage holds. */
  lemma InterceptorKeepsContentType(s: Storage)
    ensures "Content-Type" in BearerHeaders(DefaultHeaders, s)
    ensures BearerHeaders(DefaultHeaders, s)["Content-Type"] == "application/json"
  {
    assert "Content-Type" != AuthorizationHeader;
  }

  /** The config object the client builds for one request; the interceptor
      updates its headers in place before the request leaves. */
  class RequestConfig<B> {
    const baseUrl: string
    const request: Request<B>
    var headers: map<string, string>

    constructor (baseUrl: string, request: Request<B>)
      ensures this.baseUrl == baseUrl && this.request == request
      ensures headers == DefaultHeaders
    {
      this.baseUrl := baseUrl;
      this.request := request;
      headers := DefaultHeaders;
    }

    /** The interceptor: sets Authorization to "Bearer <token>" when a non-empty
        token is stored, and leaves the config alone otherwise. */
    method Intercept(s: Storage)
      modifies this
      ensures headers == BearerHeaders(old(headers), s)
    {
      var token := Token(s);
      if token.Some? {
        headers := headers[AuthorizationHeader := "Bearer " + token.value];
      }
    }
  }

  // ---------------------------------------------------------------------------
  // The endpoint table (src/services/api.js:22-86). Identifiers are the strings
  // that the template literals interpolate.

  datatype AuthOp<B> =
    | Register(data: B)
    | Login(data: B)
    | GetUsers
    | GetUserById(id: string)
    | UpdateUser(id: string, data: B)
    | DeleteUser(id: string)

  datatype FinanceOp<B> =
    | GetAccounts
    | GetAccountById(id: string)
    | CreateAccount(data: B)
    | UpdateAccount(id: string, data: B)
    | DeleteAccount(id: string)
    | GetJournalEntries
    | GetJournalEntryById(id: string)
    | CreateJournalEntry(data: B)
    | ApproveJournalEntry(id: string)

  datatype InvoiceOp<B> =
    | GetInvoices
    | GetInvoiceById(id: string)
    | CreateInvoice(data: B)
    | UpdateInvoiceStatus(id: string, data: B)
    | RecordPayment(id: string, data: B)

  datatype VendorCustomerOp<B> =
    | GetVendors
    | CreateVendor(data: B)
    | GetCustomers
    | CreateCustomer(data: B)

  datatype ProjectOp<B> =
    | GetProjects
    | GetProjectById(id: string)
    | CreateProject(data: B)
    | UpdateProjectProgress(data: B)

  datatype InsightsOp =
    | GetProjectRisk(projectId: string)
    | GetCashFlowForecast
    | GetProjectHealth(projectId: string)

  datatype DashboardOp = GetKPIs | GetAlerts | GetCashFlowChart

  /** getAuditLogs carries its arguments after the defaults were applied. */
  datatype AdminOp<B> =
    | GetAuditLogs(limit: int, offset: int)
    | CreateAuditLog(data: B)

  /** One operation of one of the eight `*API` objects. */
  datatype Operation<B> =
    | Auth(auth: AuthOp<B>)
    | Finance(finance: FinanceOp<B>)
    | Invoice(invoice: InvoiceOp<B>)
    | VendorCustomer(party: VendorCustomerOp<B>)
    | Project(project: ProjectOp<B>)
    | Insights(insights: InsightsOp)
    | Dashboard(dashboard: DashboardOp)
    | Admin(admin: AdminOp<B>)

  /** adminAPI.getAuditLogs(limit, offset): an omitted argument takes its default,
      100 for the limit and 0 for the offset. */
  function AuditLogsCall<B>(limit: Option<int>, offset: Option<int>): Operation<B>
  {
    Admin(GetAuditLogs(if limit.Some? then limit.value else 100, if offset.Some? then offset.value else 0))
  }

  /** The data argument the caller passed, for the operations that take one. */
  function Payload<B>(op: Operation<B>): Option<B>
  {
    match op
    case Auth(a) => if a.Register? || a.Login? || a.UpdateUser? then Some(a.data) else None
    case Finance(f) =>
      if f.CreateAccount? || f.UpdateAccount? || f.CreateJournalEntry? then Some(f.data) else None
    case Invoice(i) =>
      if i.CreateInvoice? || i.UpdateInvoiceStatus? || i.RecordPayment? then Some(i.data) else None
    case VendorCustomer(v) => if v.CreateVendor? || v.CreateCustomer? then Some(v.data) else None
    case Project(p) => if p.CreateProject? || p.UpdateProjectProgress? then Some(p.data) else None
    case Insights(_) => None
    case Dashboard(_) => None
    case Admin(a) => if a.CreateAuditLog? then Some(a.data) else None
  }

  function GetReq<B>(path: string): Request<B> { Request(Get, path, map[], None) }
  function PostReq<B>(path: string, data: B): Request<B> { Request(Post, path, map[], Some(data)) }
  function PutReq<B>(path: string, data: B): Request<B> { Request(Put, path, map[], Some(data)) }
  function DeleteReq<B>(path: string): Request<B> { Request(Delete, path, map[], None) }

  /** The endpoint table: the request each operation describes. */
  function Describe<B>(op: Operation<B>): (r: Request<B>)
    ensures |r.path| > 0 && r.path[0] == '/'
    ensures r.body == Payload(op)
    ensures r.verb == Get ==> r.body.None?
    ensures r.params != map[] <==> op.Admin? && op.admin.GetAuditLogs?
    ensures op.Admin? && op.admin.GetAuditLogs? ==>
              r.params == map["limit" := op.admin.limit, "offset" := op.admin.offset]
  {
    match op
    case Auth(a) => (
      match a
      case Register(d) => PostReq("/users/register", d)
      case Login(d) => PostReq("/users/login", d)
      case GetUsers => GetReq("/users")
      case GetUserById(id) => GetReq("/users/" + id)
      case UpdateUser(id, d) => PutReq("/users/" + id, d)
      case DeleteUser(id) => DeleteReq("/users/" + id))
    case Finance(f) => (
      match f
      case GetAccounts => GetReq("/finance/accounts")
      case GetAccountById(id) => GetReq("/finance/accounts/" + id)
      case CreateAccount(d) => PostReq("/finance/accounts", d)
      case UpdateAccount(id, d) => PutReq("/finance/accounts/" + id, d)
      case DeleteAccount(id) => DeleteReq("/finance/accounts/" + id)
      case GetJournalEntries => GetReq("/finance/journal-entries")
      case GetJournalEntryById(id) => GetReq("/finance/journal-entries/" + id)
      case CreateJournalEntry(d) => PostReq("/finance/journal-entries", d)
      case ApproveJournalEntry(id) =>
        Request(Post, "/finance/journal-entries/" + id + "/approve", map[], None))
    case Invoice(i) => (
      match i
      case GetInvoices => GetReq("/invoices")
      case GetInvoiceById(id) => GetReq("/invoices/" + id)
      case CreateInvoice(d) => PostReq("/invoices", d)
      case UpdateInvoiceStatus(id, d) => PutReq("/invoices/" + id + "/status", d)
      case RecordPayment(id, d) => PostReq("/invoices/" + id + "/payments", d))
    case VendorCustomer(v) => (
      match v
      case GetVendors => GetReq("/vendors-customers/vendors")
      case CreateVendor(d) => PostReq("/vendors-customers/vendors", d)
      case GetCustomers => GetReq("/vendors-customers/customers")
      case CreateCustomer(d) => PostReq("/vendors-customers/customers", d))
    case Project(p) => (
      match p
      case GetProjects => GetReq("/projects")
      case GetProjectById(id) => GetReq("/projects/" + id)
      case CreateProject(d) => PostReq("/projects", d)
      case UpdateProjectProgress(d) => PostReq("/projects/progress", d))
    case Insights(n) => (
      match n
      case GetProjectRisk(id) => GetReq("/insights/risk/" + id)
      case GetCashFlowForecast => GetReq("/insights/forecast/cashflow")
      case GetProjectHealth(id) => GetReq("/insights/health/" + id))
    case Dashboard(d) => (
      match d
      case GetKPIs => GetReq("/dashboard/kpis")
      case GetAlerts => GetReq("/dashboard/alerts")
      case GetCashFlowChart => GetReq("/dashboard/cashflow"))
    case Admin(a) => (
      match a
      case GetAuditLogs(limit, offset) =>
        assert "limit" in map["limit" := limit, "offset" := offset];
        Request(Get, "/admin/audit-logs", map["limit" := limit, "offset" := offset], None)
      case CreateAuditLog(d) => PostReq("/admin/audit-logs", d))
  }

  /** The audit-log call sends its arguments as the limit and offset query
      parameters; an omitted limit is sent as 100 and an omitted offset as 0,
      and the path does not depend on them. */
  lemma AuditLogsDefaults<B>(limit: Option<int>, offset: Option<int>)
    ensures Describe<B>(AuditLogsCall(None, None)).params == map["limit" := 100, "offset" := 0]
    ensures Describe<B>(AuditLogsCall(limit, offset)).path == "/admin/audit-logs"
    ensures Describe<B>(AuditLogsCall(limit, offset)).verb == Get
    ensures limit.Some? ==> Describe<B>(AuditLogsCall(limit, offset)).params["limit"] == limit.value
    ensures offset.Some? ==> Describe<B>(AuditLogsCall(limit, offset)).params["offset"] == offset.value
    ensures limit.None? ==> Describe<B>(AuditLogsCall(limit, offset)).params["limit"] == 100
    ensures offset.None? ==> Describe<B>(AuditLogsCall(limit, offset)).params["offset"] == 0
  {
  }

  // ---------------------------------------------------------------------------
  // The full URL: how the client joins the base URL and a request's path.

  predicate StartsWith(prefix: string, s: string) {
    |prefix| <= |s| && s[..|prefix|] == prefix
  }

  predicate EndsWith(suffix: string, s: string) {
    |suffix| <= |s| && s[|s| - |suffix|..] == suffix
  }

  predicate IsLetter(c: char) {
    'a' <= c <= 'z' || 'A' <= c <= 'Z'
  }

  predicate IsSchemeChar(c: char) {
    IsLetter(c) || '0' <= c <= '9' || c == '+' || c == '-' || c == '.'
  }

  /** An absolute URL, which the client sends as it is: "//" at the start, or a
      scheme (a letter, then letters, digits, '+', '-' or '.') followed by "://". */
  predicate IsAbsoluteUrl(p: string) {
    StartsWith("//", p)
    || (|p| > 0 && IsLetter(p[0]) && exists k :: 0 < k <= |p| - 3 && IsSchemeEnd(p, k))
  }

  /** `p` has a scheme that ends at index `k`. */
  predicate IsSchemeEnd(p: string, k: nat)
    requires k + 3 <= |p|
  {
    (forall j :: 0 < j < k ==> IsSchemeChar(p[j])) && p[k..k + 3] == "://"
  }

  /** The base URL without the one or two trailing slashes the client drops. */
  function TrimBase(b: string): string {
    if EndsWith("//", b) then b[..|b| - 2]
    else if EndsWith("/", b) then b[..|b| - 1]
    else b
  }

  /** `p` without its leading slashes. */
  function TrimLeadingSlashes(p: string): (r: string)
    ensures |r| <= |p| && r == p[|p| - |r|..]
    ensures r == [] || r[0] != '/'
    ensures forall i :: 0 <= i < |p| - |r| ==> p[i] == '/'
  {
    if p != [] && p[0] == '/' then TrimLeadingSlashes(p[1..]) else p
  }

  /** The full URL a request goes to. An empty base URL or an absolute path
      leaves the path as it is, and an empty path leaves the base URL; otherwise
      the two are joined with exactly one slash, after at most two trailing
      slashes of the base and every leading slash of the path are dropped. */
  function Url<B>(baseUrl: string, r: Request<B>): string {
    if baseUrl == "" || IsAbsoluteUrl(r.path) then r.path
    else if r.path == "" then baseUrl
    else TrimBase(baseUrl) + "/" + TrimLeadingSlashes(r.path)
  }

  /** Joining a described path to a base URL: when the base has no trailing slash
      the URL is the plain concatenation, and one or two trailing slashes on the
      base change nothing. */
  lemma UrlJoin<B>(b: string, op: Operation<B>)
    requires b != "" && !EndsWith("/", b)
    ensures Url(b, Describe(op)) == b + Describe(op).path
    ensures Url(b + "/", Describe(op)) == b + Describe(op).path
    ensures Url(b + "//", Describe(op)) == b + Describe(op).path
  {
    DescribedPathsRelative(op);
    JoinRelative(b, Describe(op));
  }

  lemma JoinRelative<B>(b: string, r: Request<B>)
    requires b != "" && !EndsWith("/", b)
    requires |r.path| >= 2 && r.path[0] == '/' && r.path[1] != '/' && !IsAbsoluteUrl(r.path)
    ensures Url(b, r) == b + r.path
    ensures Url(b + "/", r) == b + r.path
    ensures Url(b + "//", r) == b + r.path
  {
    TrimBaseWithoutSlash(b);
    JoinTrimmed(b, b, r);
    JoinTrimmed(b + "/", b, r);
    JoinTrimmed(b + "//", b, r);
  }

  /** A relative path is joined to the trimmed base with its one leading slash. */
  lemma JoinTrimmed<B>(base: string, b: string, r: Request<B>)
    requires base != "" && TrimBase(base) == b
    requires |r.path| >= 2 && r.path[0] == '/' && r.path[1] != '/' && !IsAbsoluteUrl(r.path)
    ensures Url(base, r) == b + r.path
  {
    var p := r.path;
    var rest := p[1..];
    assert rest[0] != '/';
    assert TrimLeadingSlashes(rest) == rest;
    assert TrimLeadingSlashes(p) == rest;
    assert p == "/" + rest;
  }

  /** One or two trailing slashes after a base without one are dropped. */
  lemma TrimBaseWithoutSlash(b: string)
    requires b != "" && !EndsWith("/", b)
    ensures TrimBase(b) == TrimBase(b + "/") == TrimBase(b + "//") == b
  {
    assert EndsWith("//", b + "//") && (b + "//")[..|b|] == b;
    assert (b + "/")[|b| - 1..] == [b[|b| - 1], '/'];
    assert !EndsWith("//", b + "/") && EndsWith("/", b + "/") && (b + "/")[..|b|] == b;
  }

  /** The URL of each operation for a value of the REACT_APP_API_URL build
      variable. */
  function RequestUrl<B>(env: Option<string>, op: Operation<B>): (url: string)
    ensures env.None? || env.value == "" ==> url == DefaultBaseUrl + Describe(op).path
    ensures env.Some? && env.value != "" && !EndsWith("/", env.value) ==>
      url == env.value + Describe(op).path
  {
    var b := BaseUrl(env);
    assert DefaultBaseUrl[|DefaultBaseUrl| - 1] != '/';
    if b != "" && !EndsWith("/", b) then
      UrlJoin(b, op);
      Url(b, Describe(op))
    else
      Url(b, Describe(op))
  }

  /** A trailing slash on the build variable does not change any URL. */
  lemma TrailingSlashIgnored<B>(b: string, op: Operation<B>)
    requires b != "" && !EndsWith("/", b)
    ensures RequestUrl(Some(b + "/"), op) == RequestUrl(Some(b), op) == b + Describe(op).path
  {
    UrlJoin(b, op);
  }

  // ---------------------------------------------------------------------------
  // Reading a request back: the table is unambiguous.

  /** The part of `s` between a known prefix and a known suffix. */
  function Between(prefix: string, s: string, suffix: string): string
    requires |prefix| + |suffix| <= |s|
  {
    s[|prefix|..|s| - |suffix|]
  }

  /** GET requests, dispatched on the first letter of the resource name. */
  function DecodeGet<B>(p: string, params: map<string, int>): Option<Operation<B>>
  {
    if |p| < 2 then None
    else match p[1]
      case 'u' =>
        if p == "/users" then Some(Auth(GetUsers))
        else if StartsWith("/users/", p) then Some(Auth(GetUserById(p[7..])))
        else None
      case 'f' =>
        if p == "/finance/accounts" then Some(Finance(GetAccounts))
        else if p == "/finance/journal-entries" then Some(Finance(GetJournalEntries))
        else if StartsWith("/finance/accounts/", p) then Some(Finance(GetAccountById(p[18..])))
        else if StartsWith("/finance/journal-entries/", p) then Some(Finance(GetJournalEntryById(p[25..])))
        else None
      case 'i' =>
        if p == "/invoices" then Some(Invoice(GetInvoices))
        else if p == "/insights/forecast/cashflow" then Some(Insights(GetCashFlowForecast))
        else if StartsWith("/invoices/", p) then Some(Invoice(GetInvoiceById(p[10..])))
        else if StartsWith("/insights/risk/", p) then Some(Insights(GetProjectRisk(p[15..])))
        else if StartsWith("/insights/health/", p) then Some(Insights(GetProjectHealth(p[17..])))
        else None
      case 'v' =>
        if p == "/vendors-customers/vendors" then Some(VendorCustomer(GetVendors))
        else if p == "/vendors-customers/customers" then Some(VendorCustomer(GetCustomers))
        else None
      case 'p' =>
        if p == "/projects" then Some(Project(GetProjects))
        else if StartsWith("/projects/", p) then Some(Project(GetProjectById(p[10..])))
        else None
      case 'd' =>
        if p == "/dashboard/kpis" then Some(Dashboard(GetKPIs))
        else if p == "/dashboard/alerts" then Some(Dashboard(GetAlerts))
        else if p == "/dashboard/cashflow" then Some(Dashboard(GetCashFlowChart))
        else None
      case 'a' =>
        if p == "/admin/audit-logs" && "limit" in params && "offset" in params
        then Some(Admin(GetAuditLogs(params["limit"], params["offset"])))
        else None
      case _ => None
  }

  function DecodePost<B>(p: string, body: Option<B>): Option<Operation<B>>
  {
    if |p| < 2 then None
    else if body.None? then
      if StartsWith("/finance/journal-entries/", p) && EndsWith("/approve", p) && 33 <= |p|
      then Some(Finance(ApproveJournalEntry(Between("/finance/journal-entries/", p, "/approve"))))
      else None
    else
      var d := body.value;
      match p[1]
      case 'u' =>
        if p == "/users/register" then Some(Auth(Register(d)))
        else if p == "/users/login" then Some(Auth(Login(d)))
        else None
      case 'f' =>
        if p == "/finance/accounts" then Some(Finance(CreateAccount(d)))
        else if p == "/finance/journal-entries" then Some(Finance(CreateJournalEntry(d)))
        else None
      case 'i' =>
        if p == "/invoices" then Some(Invoice(CreateInvoice(d)))
        else if StartsWith("/invoices/", p) && EndsWith("/payments", p) && 19 <= |p|
        then Some(Invoice(RecordPayment(Between("/invoices/", p, "/payments"), d)))
        else None
      case 'v' =>
        if p == "/vendors-customers/vendors" then Some(VendorCustomer(CreateVendor(d)))
        else if p == "/vendors-customers/customers" then Some(VendorCustomer(CreateCustomer(d)))
        else None
      case 'p' =>
        if p == "/projects" then Some(Project(CreateProject(d)))
        else if p == "/projects/progress" then Some(Project(UpdateProjectProgress(d)))
        else None
      case 'a' =>
        if p == "/admin/audit-logs" then Some(Admin(CreateAuditLog(d))) else None
      case _ => None
  }

  function DecodePut<B>(p: string, body: Option<B>): Option<Operation<B>>
  {
    if |p| < 2 || body.None? then None
    else match p[1]
      case 'u' => if StartsWith("/users/", p) then Some(Auth(UpdateUser(p[7..], body.value))) else None
      case 'f' =>
        if StartsWith("/finance/accounts/", p) then Some(Finance(UpdateAccount(p[18..], body.value)))
        else None
      case 'i' =>
        if StartsWith("/invoices/", p) && EndsWith("/status", p) && 17 <= |p|
        then Some(Invoice(UpdateInvoiceStatus(Between("/invoices/", p, "/status"), body.value)))
        else None
      case _ => None
  }

  function DecodeDelete<B>(p: string): Option<Operation<B>>
  {
    if StartsWith("/users/", p) then Some(Auth(DeleteUser(p[7..])))
    else if StartsWith("/finance/accounts/", p) then Some(Finance(DeleteAccount(p[18..])))
    else None
  }

  /** The operation a request stands for, if any: an independent reading of the
      table, from method, path, parameters and body back to the operation. */
  function Decode<B>(r: Request<B>): Option<Operation<B>>
  {
    match r.verb
    case Get => DecodeGet(r.path, r.params)
    case Post => DecodePost(r.path, r.body)
    case Put => DecodePut(r.path, r.body)
    case Delete => DecodeDelete(r.path)
  }

  lemma DecodeAuth<B>(a: AuthOp<B>)
    ensures Decode(Describe(Auth(a))) == Some(Auth(a))
  {
    match a
    case GetUserById(id) => DecodeGetUserById<B>(id);
    case UpdateUser(id, d) => DecodeUpdateUser<B>(id, d);
    case DeleteUser(id) => DecodeDeleteUser<B>(id);
    case Register(_) =>
      var p := "/users/register";
      assert |p| == 15 && p[1] == 'u';
    case Login(_) =>
      var p := "/users/login";
      assert |p| == 12 && p[1] == 'u';
    case GetUsers =>
      var p := "/users";
      assert |p| == 6 && p[1] == 'u';
  }

  lemma DecodeFinance<B>(f: FinanceOp<B>)
    ensures Decode(Describe(Finance(f))) == Some(Finance(f))
  {
    match f
    case GetAccountById(id) => DecodeGetAccountById<B>(id);
    case UpdateAccount(id, d) => DecodeUpdateAccount<B>(id, d);
    case DeleteAccount(id) => DecodeDeleteAccount<B>(id);
    case GetJournalEntryById(id) => DecodeGetJournalEntryById<B>(id);
    case ApproveJournalEntry(id) => DecodeApproveJournalEntry<B>(id);
    case GetAccounts =>
      var p := "/finance/accounts";
      assert |p| == 17 && p[1] == 'f';
    case CreateAccount(_) =>
      var p := "/finance/accounts";
      assert |p| == 17 && p[1] == 'f';
    case GetJournalEntries =>
      var p := "/finance/journal-entries";
      assert |p| == 24 && p[1] == 'f';
    case CreateJournalEntry(_) =>
      var p := "/finance/journal-entries";
      assert |p| == 24 && p[1] == 'f';
  }

  lemma DecodeInvoice<B>(i: InvoiceOp<B>)
    ensures Decode(Describe(Invoice(i))) == Some(Invoice(i))
  {
    match i
    case GetInvoiceById(id) => DecodeGetInvoiceById<B>(id);
    case UpdateInvoiceStatus(id, d) => DecodeUpdateInvoiceStatus<B>(id, d);
    case RecordPayment(id, d) => DecodeRecordPayment<B>(id, d);
    case GetInvoices =>
      var p := "/invoices";
      assert |p| == 9 && p[1] == 'i';
    case CreateInvoice(_) =>
      var p := "/invoices";
      assert |p| == 9 && p[1] == 'i';
  }

  lemma DecodeProject<B>(p: ProjectOp<B>)
    ensures Decode(Describe(Project(p))) == Some(Project(p))
  {
    match p
    case GetProjectById(id) => DecodeGetProjectById<B>(id);
    case GetProjects =>
      var q := "/projects";
      assert |q| == 9 && q[1] == 'p';
    case CreateProject(_) =>
      var q := "/projects";
      assert |q| == 9 && q[1] == 'p';
    case UpdateProjectProgress(_) =>
      var q := "/projects/progress";
      assert |q| == 18 && q[1] == 'p';
  }

  lemma DecodeInsights<B>(n: InsightsOp)
    ensures Decode<B>(Describe(Insights(n))) == Some(Insights(n))
  {
    match n
    case GetProjectRisk(id) => DecodeGetProjectRisk<B>(id);
    case GetProjectHealth(id) => DecodeGetProjectHealth<B>(id);
    case GetCashFlowForecast =>
      var p := "/insights/forecast/cashflow";
      assert |p| == 27 && p[1] == 'i';
  }

  lemma DecodeVendorCustomer<B>(v: VendorCustomerOp<B>)
    ensures Decode(Describe(VendorCustomer(v))) == Some(VendorCustomer(v))
  {
    match v
    case GetVendors =>
      var p := "/vendors-customers/vendors";
      assert |p| == 26 && p[1] == 'v';
    case CreateVendor(_) =>
      var p := "/vendors-customers/vendors";
      assert |p| == 26 && p[1] == 'v';
    case GetCustomers =>
      var p := "/vendors-customers/customers";
      assert |p| == 28 && p[1] == 'v';
    case CreateCustomer(_) =>
      var p := "/vendors-customers/customers";
      assert |p| == 28 && p[1] == 'v';
  }

  lemma DecodeDashboard<B>(d: DashboardOp)
    ensures Decode<B>(Describe(Dashboard(d))) == Some(Dashboard(d))
  {
    match d
    case GetKPIs =>
      var p := "/dashboard/kpis";
      assert |p| == 15 && p[1] == 'd';
    case GetAlerts =>
      var p := "/dashboard/alerts";
      assert |p| == 17 && p[1] == 'd';
    case GetCashFlowChart =>
      var p := "/dashboard/cashflow";
      assert |p| == 19 && p[1] == 'd';
  }

  lemma DecodeAdmin<B>(a: AdminOp<B>)
    ensures Decode(Describe(Admin(a))) == Some(Admin(a))
  {
    var p := "/admin/audit-logs";
    assert |p| == 17 && p[1] == 'a';
  }

  lemma DecodeGetUserById<B>(id: string)
    ensures Decode<B>(Describe(Auth(GetUserById(id)))) == Some(Auth(GetUserById(id)))
  {
      var p := "/users/" + id;
      assert p[..7] == "/users/" && p[1] == 'u';
  }

  lemma DecodeUpdateUser<B>(id: string, d: B)
    ensures Decode<B>(Describe(Auth(UpdateUser(id, d)))) == Some(Auth(UpdateUser(id, d)))
  {
      var p := "/users/" + id;
      assert p[..7] == "/users/" && p[1] == 'u';
  }

  lemma DecodeDeleteUser<B>(id: string)
    ensures Decode<B>(Describe(Auth(DeleteUser(id)))) == Some(Auth(DeleteUser(id)))
  {
      var p := "/users/" + id;
      assert p[..7] == "/users/";
  }

  lemma DecodeGetAccountById<B>(id: string)
    ensures Decode<B>(Describe(Finance(GetAccountById(id)))) == Some(Finance(GetAccountById(id)))
  {
      var p := "/finance/accounts/" + id;
      assert p[..18] == "/finance/accounts/" && p[1] == 'f' && p[9] == 'a';
  }

  lemma DecodeUpdateAccount<B>(id: string, d: B)
    ensures Decode<B>(Describe(Finance(UpdateAccount(id, d)))) == Some(Finance(UpdateAccount(id, d)))
  {
      var p := "/finance/accounts/" + id;
      assert p[..18] == "/finance/accounts/" && p[1] == 'f';
  }

  lemma DecodeDeleteAccount<B>(id: string)
    ensures Decode<B>(Describe(Finance(DeleteAccount(id)))) == Some(Finance(DeleteAccount(id)))
  {
      var p := "/finance/accounts/" + id;
      assert p[..18] == "/finance/accounts/" && p[1] == 'f';
  }

  lemma DecodeGetJournalEntryById<B>(id: string)
    ensures Decode<B>(Describe(Finance(GetJournalEntryById(id)))) == Some(Finance(GetJournalEntryById(id)))
  {
      var p := "/finance/journal-entries/" + id;
      assert p[..25] == "/finance/journal-entries/" && p[1] == 'f' && p[9] == 'j';
  }

  lemma DecodeApproveJournalEntry<B>(id: string)
    ensures Decode<B>(Describe(Finance(ApproveJournalEntry(id)))) == Some(Finance(ApproveJournalEntry(id)))
  {
      var p := "/finance/journal-entries/" + id + "/approve";
      assert p[..25] == "/finance/journal-entries/";
      assert p[|p| - 8..] == "/approve";
      assert Between("/finance/journal-entries/", p, "/approve") == id;
  }

  lemma DecodeGetInvoiceById<B>(id: string)
    ensures Decode<B>(Describe(Invoice(GetInvoiceById(id)))) == Some(Invoice(GetInvoiceById(id)))
  {
      var p := "/invoices/" + id;
      assert p[..10] == "/invoices/" && p[1] == 'i' && p[3] == 'v';
  }

  lemma DecodeUpdateInvoiceStatus<B>(id: string, d: B)
    ensures Decode<B>(Describe(Invoice(UpdateInvoiceStatus(id, d)))) == Some(Invoice(UpdateInvoiceStatus(id, d)))
  {
      var p := "/invoices/" + id + "/status";
      assert p[..10] == "/invoices/" && p[1] == 'i';
      assert p[|p| - 7..] == "/status";
      assert Between("/invoices/", p, "/status") == id;
  }

  lemma DecodeRecordPayment<B>(id: string, d: B)
    ensures Decode<B>(Describe(Invoice(RecordPayment(id, d)))) == Some(Invoice(RecordPayment(id, d)))
  {
      var p := "/invoices/" + id + "/payments";
      assert p[..10] == "/invoices/" && p[1] == 'i' && p[3] == 'v';
      assert p[|p| - 9..] == "/payments";
      assert Between("/invoices/", p, "/payments") == id;
  }

  lemma DecodeGetProjectById<B>(id: string)
    ensures Decode<B>(Describe(Project(GetProjectById(id)))) == Some(Project(GetProjectById(id)))
  {
      var q := "/projects/" + id;
      assert q[..10] == "/projects/" && q[1] == 'p';
  }

  lemma DecodeGetProjectRisk<B>(id: string)
    ensures Decode<B>(Describe(Insights(GetProjectRisk(id)))) == Some(Insights(GetProjectRisk(id)))
  {
      var p := "/insights/risk/" + id;
      assert p[..15] == "/insights/risk/" && p[1] == 'i' && p[3] == 's' && p[10] == 'r';
  }

  lemma DecodeGetProjectHealth<B>(id: string)
    ensures Decode<B>(Describe(Insights(GetProjectHealth(id)))) == Some(Insights(GetProjectHealth(id)))
  {
      var p := "/insights/health/" + id;
      assert p[..17] == "/insights/health/" && p[1] == 'i' && p[3] == 's' && p[10] == 'h';
  }

  /** Reading a described request back gives the operation it came from. */
  lemma DecodeDescribe<B>(op: Operation<B>)
    ensures Decode(Describe(op)) == Some(op)
  {
    match op
    case Auth(a) => DecodeAuth(a);
    case Finance(f) => DecodeFinance(f);
    case Invoice(i) => DecodeInvoice(i);
    case VendorCustomer(v) => DecodeVendorCustomer(v);
    case Project(p) => DecodeProject(p);
    case Insights(n) => DecodeInsights<B>(n);
    case Dashboard(d) => DecodeDashboard<B>(d);
    case Admin(a) => DecodeAdmin(a);
  }

  /** No two operations describe the same request: the endpoint table is
      unambiguous, whatever identifiers the callers interpolate. */
  lemma DescribeInjective<B>(a: Operation<B>, b: Operation<B>)
    requires Describe(a) == Describe(b)
    ensures a == b
  {
    DecodeDescribe(a);
    DecodeDescribe(b);
  }

  /** A request the table can read back has a relative path: its second
      character, the first of the resource name, is not a slash. */
  lemma DecodedPathsRelative<B>(r: Request<B>)
    requires Decode(r).Some?
    ensures |r.path| >= 2 && r.path[1] != '/'
  {
    var p := r.path;
    if StartsWith("/users/", p) {
      assert p[1] == p[..7][1];
    }
    if StartsWith("/finance/accounts/", p) {
      assert p[1] == p[..18][1];
    }
    if StartsWith("/finance/journal-entries/", p) {
      assert p[1] == p[..25][1];
    }
  }

  /** Every described path is relative, so the client joins it to the base URL. */
  lemma DescribedPathsRelative<B>(op: Operation<B>)
    ensures |Describe(op).path| >= 2 && Describe(op).path[1] != '/'
    ensures !IsAbsoluteUrl(Describe(op).path)
  {
    DecodeDescribe(op);
    DecodedPathsRelative(Describe(op));
    var p := Describe(op).path;
    assert p[..2][1] == p[1];
  }
}
