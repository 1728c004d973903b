/** The dashboard of src/pages/Dashboard.js: the all-or-nothing load of KPIs,
    alerts and the cash-flow series, the defaults of the six KPI cards, the
    visibility of the alerts section and of the chart, and the alert headings. */
module Dashboard {
  import opened Common
  import Api

  // ---------------------------------------------------------------------------
  // KPI cards

  /** The KPI snapshot; a field the backend leaves out is None. */
  datatype Kpis = Kpis(
    total_projects: Option<Num>, total_invoices: Option<Num>, pending_payments: Option<Num>,
    cash_balance: Option<Num>, total_expenses: Option<Num>, high_risk_projects: Option<Num>)

  /** What a KPI card shows: a plain number, or a number formatted by toFixed(2)
      (the formatting itself is not modelled). */
  datatype Display = Plain(v: real) | Fixed2(n: Num)

  /** JavaScript truthiness of an optional number: present, not NaN, not zero. */
  predicate Truthy(v: Option<Num>) {
    v.Some? && v.value.Real? && v.value.value != 0.0
  }

  /** A count card, `kpis?.field || 0`: the value when truthy, 0 otherwise. */
  function CountShown(v: Option<Num>): (d: Display)
    ensures d.Plain? && (d.v == 0.0 <==> !Truthy(v))
  {
    if Truthy(v) then Plain(v.value.value) else Plain(0.0)
  }

  /** A money card, `kpis?.field?.toFixed(2) || 0`: toFixed(2) yields a non-empty
      string, so any present value is formatted, zero and NaN included, and only
      a missing one falls back to 0. */
  function MoneyShown(v: Option<Num>): (d: Display)
    ensures d.Plain? <==> v.None?
    ensures d.Plain? ==> d.v == 0.0
    ensures d.Fixed2? ==> v == Some(d.n)
  {
    if v.Some? then Fixed2(v.value) else Plain(0.0)
  }

  /** Falsy zero is indistinguishable on a count card: the card shows the number
      itself whenever it is one, and 0 for a missing value or NaN. */
  lemma CountShowsValueOrZero(v: Option<Num>)
    ensures CountShown(v) == Plain(if v.Some? && v.value.Real? then v.value.value else 0.0)
  {
  }

  /** On a money card a present zero differs from a missing field. */
  lemma MoneyZeroIsFormatted()
    ensures MoneyShown(Some(Real(0.0))) != MoneyShown(None)
    ensures CountShown(Some(Real(0.0))) == CountShown(None)
  {
  }

  /** The six cards, in order, with their titles. */
  function KpiCards(kpis: Option<Kpis>): (cards: seq<(string, Display)>)
    ensures |cards| == 6
    ensures cards[0].0 == "Total Projects" && cards[1].0 == "Total Invoices"
    ensures cards[2].0 == "Pending Payments" && cards[3].0 == "Cash Balance"
    ensures cards[4].0 == "Total Expenses" && cards[5].0 == "High Risk Projects"
    ensures kpis.None? ==> forall i :: 0 <= i < 6 ==> cards[i].1 == Plain(0.0)
    ensures kpis.Some? ==>
      cards[0].1 == CountShown(kpis.value.total_projects)
      && cards[1].1 == CountShown(kpis.value.total_invoices)
      && cards[2].1 == MoneyShown(kpis.value.pending_payments)
      && cards[3].1 == MoneyShown(kpis.value.cash_balance)
      && cards[4].1 == MoneyShown(kpis.value.total_expenses)
      && cards[5].1 == CountShown(kpis.value.high_risk_projects)
  {
    var k := if kpis.Some? then kpis.value else Kpis(None, None, None, None, None, None);
    [("Total Projects", CountShown(k.total_projects)),
     ("Total Invoices", CountShown(k.total_invoices)),
     ("Pending Payments", MoneyShown(k.pending_payments)),
     ("Cash Balance", MoneyShown(k.cash_balance)),
     ("Total Expenses", MoneyShown(k.total_expenses)),
     ("High Risk Projects", CountShown(k.high_risk_projects))]
  }

  // ---------------------------------------------------------------------------
  // Alerts

  datatype Alert = Alert(alertType: string, severity: string, message: string)

  /** The index of the first `c` in `s`, or -1 when there is none. */
  function IndexOf(s: string, c: char): (r: int)
    ensures -1 <= r < |s|
    ensures r == -1 <==> c !in s
    ensures r >= 0 ==> s[r] == c && c !in s[..r]
  {
    if s == [] then -1
    else if s[0] == c then 0
    else
      var r := IndexOf(s[1..], c);
      assert s[1..][..if r < 0 then 0 else r] == s[1..if r < 0 then 1 else r + 1];
      if r < 0 then -1 else r + 1
  }

  /** String.prototype.replace with a one-character pattern and replacement:
      only the first occurrence is replaced. */
  function ReplaceFirst(s: string, from: char, to: char): (r: string)
    ensures |r| == |s|
    ensures IndexOf(s, from) == -1 ==> r == s
    ensures IndexOf(s, from) >= 0 ==> r == s[IndexOf(s, from) := to]
  {
    if s == [] then []
    else if s[0] == from then [to] + s[1..]
    else [s[0]] + ReplaceFirst(s[1..], from, to)
  }

  /** toUpperCase on one character, for ASCII letters. */
  function UpperChar(c: char): char {
    if 'a' <= c <= 'z' then (c as int - 32) as char else c
  }

  /** toUpperCase, restricted to ASCII. */
  function ToUpper(s: string): (r: string)
    ensures |r| == |s|
    ensures forall i :: 0 <= i < |s| ==> r[i] == UpperChar(s[i])
  {
    if s == [] then [] else [UpperChar(s[0])] + ToUpper(s[1..])
  }

  /** The heading of an alert card. */
  function AlertHeading(a: Alert): (h: string)
    ensures |h| == |a.alertType|
    ensures forall i :: 0 <= i < |h| ==> !('a' <= h[i] <= 'z')
  {
    ToUpper(ReplaceFirst(a.alertType, '_', ' '))
  }

  /** Only the first underscore becomes a space: every later one survives, and
      everything before the first is only upper-cased. */
  lemma OnlyFirstUnderscoreReplaced(a: Alert, j: nat)
    requires j < |a.alertType| && '_' in a.alertType
    ensures var i := IndexOf(a.alertType, '_');
      AlertHeading(a)[i] == ' '
      && (j != i ==> AlertHeading(a)[j] == UpperChar(a.alertType[j]))
      && (j > i && a.alertType[j] == '_' ==> AlertHeading(a)[j] == '_')
  {
    var i := IndexOf(a.alertType, '_');
    var r := ReplaceFirst(a.alertType, '_', ' ');
    assert r[i] == ' ';
    if j != i {
      assert r[j] == a.alertType[j];
    }
  }

  /** The alerts section: the headings of its cards, or None when it is not rendered. */
  function AlertsSection(alerts: seq<Alert>): (section: Option<seq<string>>)
    ensures section.Some? <==> |alerts| > 0
    ensures section.Some? ==>
      |section.value| == |alerts| && forall i :: 0 <= i < |alerts| ==> section.value[i] == AlertHeading(alerts[i])
  {
    if |alerts| > 0 then Some(Headings(alerts)) else None
  }

  function Headings(alerts: seq<Alert>): (hs: seq<string>)
    ensures |hs| == |alerts| && forall i :: 0 <= i < |alerts| ==> hs[i] == AlertHeading(alerts[i])
  {
    if alerts == [] then [] else [AlertHeading(alerts[0])] + Headings(alerts[1..])
  }

  // ---------------------------------------------------------------------------
  // Cash-flow chart

  datatype CashFlowPoint = CashFlowPoint(date: string, inflow: real, outflow: real)

  datatype ChartView = Bars(points: seq<CashFlowPoint>) | Message(text: string)

  const NoCashFlowMessage: string := "No cash flow data available"

  /** The chart area: a bar chart of the series when it has points, the
      no-data message otherwise. */
  function CashFlowView(cashFlow: seq<CashFlowPoint>): ChartView
  {
    if |cashFlow| > 0 then Bars(cashFlow) else Message(NoCashFlowMessage)
  }

  // ---------------------------------------------------------------------------
  // The page

  type DashboardRequest = Api.Request<()>

  /** The three parallel fetches of fetchData, in order. */
  function LoadRequests(): (rs: seq<DashboardRequest>)
    ensures |rs| == 3 && forall i :: 0 <= i < 3 ==> rs[i].verb == Api.Get && rs[i].body.None?
    ensures rs[0].path == "/dashboard/kpis" && rs[1].path == "/dashboard/alerts"
    ensures rs[2].path == "/dashboard/cashflow"
  {
    [Api.Describe(Api.Dashboard(Api.GetKPIs)),
     Api.Describe(Api.Dashboard(Api.GetAlerts)),
     Api.Describe(Api.Dashboard(Api.GetCashFlowChart))]
  }

  class DashboardPage {
    var kpis: Option<Kpis>
    var alerts: seq<Alert>
    var cashFlow: seq<CashFlowPoint>
    var loading: bool

    /** Mounting: the initial state; the mount effect issues LoadRequests(). */
    constructor ()
      ensures kpis.None? && alerts == [] && cashFlow == [] && loading
    {
      kpis, alerts, cashFlow, loading := None, [], [], true;
    }

    /** fetchData once Promise.all settled: all three slices are set when every
        fetch succeeded, none of them otherwise; loading ends either way. */
    method ApplyLoad(k: Outcome<Kpis>, a: Outcome<seq<Alert>>, c: Outcome<seq<CashFlowPoint>>)
      modifies this
      ensures !loading
      ensures k.Success? && a.Success? && c.Success? ==>
        kpis == Some(k.data) && alerts == a.data && cashFlow == c.data
      ensures k.Success? && a.Success? && c.Success? ==>
        (CashFlowView(cashFlow).Bars? <==> c.data != [])
        && (AlertsSection(alerts).Some? <==> a.data != [])
      ensures !(k.Success? && a.Success? && c.Success?) ==>
        kpis == old(kpis) && alerts == old(alerts) && cashFlow == old(cashFlow)
    {
      var all := All3(k, a, c);
      if all.Success? {
        kpis := Some(all.data.0);
        alerts := all.data.1;
        cashFlow := all.data.2;
      }
      loading := false;
    }
  }

  /** A failed load leaves the freshly mounted page on its defaults: six zero
      cards, no alerts section and the no-data message. */
  lemma FailedLoadShowsDefaults(kpis: Option<Kpis>, alerts: seq<Alert>, cashFlow: seq<CashFlowPoint>)
    requires kpis.None? && alerts == [] && cashFlow == []
    ensures forall i :: 0 <= i < 6 ==> KpiCards(kpis)[i].1 == Plain(0.0)
    ensures AlertsSection(alerts).None?
    ensures CashFlowView(cashFlow) == Message(NoCashFlowMessage)
  {
  }
}
