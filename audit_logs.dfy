/** The audit log page of src/pages/AuditLogs.js: offset/limit pagination with
    Previous and Next, the page label, the disable predicates of the two buttons,
    and the handling of a fetch result. */
module AuditLogs {
  import opened Common
  import Api

  /** One row of the audit log as the backend returns it. */
  datatype LogEntry = LogEntry(
    id: int, created_at: string, user_name: Option<string>, action: string,
    entity_type: string, entity_id: string, ip_address: string)

  /** The body of a successful getAuditLogs response. */
  datatype LogsResponse = LogsResponse(logs: seq<LogEntry>, total: int)

  datatype Pagination = Pagination(limit: int, offset: int, total: int)

  const PageSize: int := 50
  const InitialPagination: Pagination := Pagination(PageSize, 0, 0)

  /** The pagination invariant: a positive limit, and an offset that is a
      non-negative multiple of it. */
  predicate Aligned(p: Pagination) {
    p.limit > 0 && p.offset >= 0 && p.offset % p.limit == 0
  }

  /** The state the Previous button sets. */
  function Previous(p: Pagination): (q: Pagination)
    ensures q.limit == p.limit && q.total == p.total
    ensures q.offset >= 0 && (p.offset > 0 && p.limit > 0 ==> q.offset < p.offset)
    ensures q.offset == 0 <==> p.offset <= p.limit
  {
    p.(offset := if 0 <= p.offset - p.limit then p.offset - p.limit else 0)
  }

  /** The state the Next button sets. */
  function Next(p: Pagination): Pagination
  {
    p.(offset := p.offset + p.limit)
  }

  /** Previous is disabled exactly on the first page. */
  predicate PreviousDisabled(p: Pagination) {
    p.offset == 0
  }

  /** Next is disabled once the current page reaches the total. */
  predicate NextDisabled(p: Pagination) {
    p.offset + p.limit >= p.total
  }

  /** The page number shown between the buttons (Math.floor of offset / limit,
      plus one; both are non-negative, so floor and Dafny's division agree). */
  function PageNumber(p: Pagination): (n: int)
    requires Aligned(p)
    ensures n >= 1
    ensures (n - 1) * p.limit == p.offset
  {
    p.offset / p.limit + 1
  }

  lemma PreviousKeepsAligned(p: Pagination)
    requires Aligned(p)
    ensures Aligned(Previous(p))
  {
    if p.offset >= p.limit {
      DivisibleMinus(p.offset, p.limit);
    }
  }

  lemma NextKeepsAligned(p: Pagination)
    requires Aligned(p)
    ensures Aligned(Next(p))
  {
    assert (p.offset + p.limit) % p.limit == p.offset % p.limit by {
      DivisiblePlus(p.offset, p.limit);
    }
  }

  /** A multiple of m stays one when m is added or subtracted. */
  lemma DivisiblePlus(a: int, m: int)
    requires m > 0 && a % m == 0
    ensures (a + m) % m == 0
  {
    ShiftByMultiple(a, m, 1);
  }

  lemma DivisibleMinus(a: int, m: int)
    requires m > 0 && a % m == 0
    ensures (a - m) % m == 0
  {
    ShiftByMultiple(a, m, -1);
  }

  /** Euclidean remainders are unchanged by adding a multiple of the divisor. */
  lemma ShiftByMultiple(a: int, m: int, d: int)
    requires m > 0 && a % m == 0
    ensures (a + d * m) % m == 0
  {
    var b := a + d * m;
    var k, q, r := a / m, b / m, b % m;
    assert a == m * k;
    assert b == m * q + r && 0 <= r < m;
    var e := k + d - q;
    assert m * e == m * k + m * d - m * q;
    assert r == m * e;
    MultipleInRange(m, e);
  }

  /** The only multiple of m in [0, m) is 0. */
  lemma MultipleInRange(m: int, e: int)
    requires m > 0 && 0 <= m * e < m
    ensures e == 0
  {
  }

  /** Next then Previous returns to the page one started from. */
  lemma NextThenPrevious(p: Pagination)
    requires Aligned(p)
    ensures Previous(Next(p)) == p
  {
  }

  /** Previous then Next returns to the starting page whenever Previous is enabled. */
  lemma PreviousThenNext(p: Pagination)
    requires Aligned(p) && !PreviousDisabled(p)
    ensures Next(Previous(p)) == p
  {
    var k := p.offset / p.limit;
    assert p.offset == k * p.limit;
    assert k >= 1;
    assert p.offset >= p.limit;
  }

  /** Next and Previous move the page label by exactly one page. */
  lemma PageNumberSteps(p: Pagination)
    requires Aligned(p)
    ensures Aligned(Next(p)) && PageNumber(Next(p)) == PageNumber(p) + 1
    ensures Aligned(Previous(p)) && !PreviousDisabled(p) ==> PageNumber(Previous(p)) == PageNumber(p) - 1
  {
    NextKeepsAligned(p);
    PreviousKeepsAligned(p);
    PageNumberUnique(Next(p), PageNumber(p) + 1);
    if !PreviousDisabled(p) {
      PreviousThenNext(p);
      PageNumberUnique(Previous(p), PageNumber(p) - 1);
    }
  }

  lemma PageNumberUnique(p: Pagination, n: int)
    requires Aligned(p) && (n - 1) * p.limit == p.offset
    ensures PageNumber(p) == n
  {
  }

  /** The user cell of a row: the user's name, or "System" when it is missing or
      empty. The cell is never blank, any other text is the stored name, and a
      user actually named "System" cannot be told apart from a system entry. */
  function UserCell(e: LogEntry): (cell: string)
    ensures cell != ""
    ensures cell != "System" ==> e.user_name == Some(cell)
    ensures cell == "System" <==> e.user_name.None? || e.user_name.value in {"", "System"}
  {
    if e.user_name.Some? && e.user_name.value != "" then e.user_name.value else "System"
  }

  /** The request fetchLogs issues for the pagination `p`. */
  function LogsRequest(p: Pagination): (r: Api.Request<()>)
    ensures r.verb == Api.Get && r.path == "/admin/audit-logs" && r.body.None?
    ensures r.params == map["limit" := p.limit, "offset" := p.offset]
  {
    Api.Describe(Api.AuditLogsCall(Some(p.limit), Some(p.offset)))
  }

  /** The mount effect asks for the first 50 entries. The page always passes both
      arguments, so the client's defaults (100 and 0) never apply to it. */
  lemma MountFetchesFirstPage()
    ensures LogsRequest(InitialPagination).params == map["limit" := 50, "offset" := 0]
    ensures LogsRequest(InitialPagination).params != Api.Describe<()>(Api.AuditLogsCall(None, None)).params
  {
    Api.AuditLogsDefaults<()>(None, None);
    assert LogsRequest(InitialPagination).params["limit"] == 50;
  }

  /** The page's state. The effect that depends on pagination.offset re-issues the
      fetch whenever the offset changes; the methods return the requests issued. */
  class AuditLogsPage {
    var logs: seq<LogEntry>
    var loading: bool
    var pagination: Pagination

    ghost predicate Valid()
      reads this
    {
      Aligned(pagination) && pagination.limit == PageSize
    }

    /** Mounting: the initial state; the mount effect then issues
        LogsRequest(InitialPagination). */
    constructor ()
      ensures Valid()
      ensures logs == [] && loading && pagination == InitialPagination
    {
      logs := [];
      loading := true;
      pagination := InitialPagination;
    }

    /** The Previous button's handler, followed by the effect it triggers. */
    method ClickPrevious() returns (issued: seq<Api.Request<()>>)
      requires Valid()
      modifies this
      ensures Valid()
      ensures pagination == Previous(old(pagination))
      ensures logs == old(logs) && loading == old(loading)
      ensures issued == if pagination.offset != old(pagination.offset) then [LogsRequest(pagination)] else []
    {
      PreviousKeepsAligned(pagination);
      var before := pagination.offset;
      pagination := Previous(pagination);
      issued := if pagination.offset != before then [LogsRequest(pagination)] else [];
    }

    /** The Next button's handler, followed by the effect it triggers. */
    method ClickNext() returns (issued: seq<Api.Request<()>>)
      requires Valid()
      modifies this
      ensures Valid()
      ensures pagination == Next(old(pagination))
      ensures logs == old(logs) && loading == old(loading)
      ensures issued == [LogsRequest(pagination)]
    {
      NextKeepsAligned(pagination);
      pagination := Next(pagination);
      issued := [LogsRequest(pagination)];
    }

    /** fetchLogs once its request settled: a success replaces the logs and the
        total and keeps limit and offset (so the effect does not fire again); a
        failure keeps both. Loading ends either way. */
    method ApplyFetch(response: Outcome<LogsResponse>)
      requires Valid()
      modifies this
      ensures Valid()
      ensures !loading
      ensures response.Success? ==> logs == response.data.logs && pagination == old(pagination).(total := response.data.total)
      ensures response.Failure? ==> logs == old(logs) && pagination == old(pagination)
    {
      if response.Success? {
        logs := response.data.logs;
        pagination := pagination.(total := response.data.total);
      }
      loading := false;
    }
  }

  /** The scenario of a log of 120 entries: on the first page Previous is disabled
      and Next enabled; two clicks on Next reach offset 100, where Next is disabled. */
  lemma HundredTwentyEntries()
    ensures var p := Pagination(50, 0, 120);
      PreviousDisabled(p) && !NextDisabled(p)
      && Next(p).offset == 50 && !NextDisabled(Next(p))
      && Next(Next(p)).offset == 100 && NextDisabled(Next(Next(p)))
      && PageNumber(Next(Next(p))) == 3
  {
  }
}
