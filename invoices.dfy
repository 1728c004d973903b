/** The invoice page of src/pages/Invoices.js: the all-or-nothing load of invoices,
    customers and vendors, the invoice draft with its line items, the item editor
    that re-derives an amount from quantity and unit price, the Sales/Purchase
    party selector, and invoice creation. */
module Invoices {
  import opened Common
  import Api

  // ---------------------------------------------------------------------------
  // Line items

  /** A value stored in an item field: handleItemChange stores a number, or the
      raw text when the input does not look numeric. */
  datatype Value = Number(n: Num) | Text(s: string)

  datatype Item = Item(description: Value, quantity: Value, unit_price: Value, amount: Value)

  datatype ItemField = Description | Quantity | UnitPrice | Amount

  /** The value of an input event together with the two parse results it gives:
      `numeric` is !isNaN(raw) and `parsed` is parseFloat(raw) (None for NaN). */
  datatype FieldInput = FieldInput(raw: string, numeric: bool, parsed: Option<real>)

  /** The value handleItemChange stores for `field`: the amount field is always
      parsed; any other field keeps the raw text unless it looks numeric. */
  function Stored(field: ItemField, input: FieldInput): Value
  {
    if field == Amount then Number(FromParse(input.parsed))
    else if !input.numeric then Text(input.raw)
    else Number(FromParse(input.parsed))
  }

  /** JavaScript's `*` on two stored values. Text is stored only for input that
      does not look numeric, so a product involving text is NaN, as is one
      involving NaN. */
  function Product(a: Value, b: Value): Value
  {
    if a.Number? && a.n.Real? && b.Number? && b.n.Real? then Number(Real(a.n.value * b.n.value))
    else Number(NaN)
  }

  /** The line-item invariant: the amount holds the value quantity times unit
      price produced. NaN is included: the comparison is structural equality of
      the model, not JavaScript's ===, under which NaN differs from itself. */
  predicate AmountMatches(it: Item) {
    it.amount == Product(it.quantity, it.unit_price)
  }

  predicate AllAmountsMatch(items: seq<Item>) {
    forall i :: 0 <= i < |items| ==> AmountMatches(items[i])
  }

  /** One item after handleItemChange(idx, field, value) wrote `field` and, for
      quantity and unit price, recomputed the amount. */
  function EditItem(it: Item, field: ItemField, input: FieldInput): (r: Item)
    ensures field == Description ==> r == it.(description := Stored(field, input))
    ensures field == Amount ==> r == it.(amount := Stored(field, input))
    ensures field == Quantity ==>
      r.quantity == Stored(field, input) && r.description == it.description && r.unit_price == it.unit_price
    ensures field == UnitPrice ==>
      r.unit_price == Stored(field, input) && r.description == it.description && r.quantity == it.quantity
    ensures field == Quantity || field == UnitPrice ==> AmountMatches(r)
    ensures field != Amount && AmountMatches(it) ==> AmountMatches(r)
  {
    match field
    case Description => it.(description := Stored(field, input))
    case Amount => it.(amount := Stored(field, input))
    case Quantity =>
      var q := Stored(field, input);
      it.(quantity := q, amount := Product(q, it.unit_price))
    case UnitPrice =>
      var u := Stored(field, input);
      it.(unit_price := u, amount := Product(it.quantity, u))
  }

  /** Only the amount column is parsed unconditionally. The other columns keep
      text that does not look numeric, and store a number otherwise, the
      description included; an amount that does not parse becomes NaN. */
  lemma DescriptionParsedWhenNumeric(it: Item, input: FieldInput)
    ensures input.numeric ==> EditItem(it, Description, input).description == Number(FromParse(input.parsed))
    ensures !input.numeric ==> EditItem(it, Description, input).description == Text(input.raw)
    ensures EditItem(it, Amount, input).amount.Number?
    ensures input.parsed.None? ==> EditItem(it, Amount, input).amount == Number(NaN)
    ensures EditItem(it, Description, input).amount == it.amount
  {
  }

  /** Text typed into the quantity column turns the amount into NaN, and so does a
      unit price that is text. */
  lemma TextMakesAmountNaN(it: Item, input: FieldInput)
    requires !input.numeric
    ensures EditItem(it, Quantity, input).amount == Number(NaN)
    ensures EditItem(it, UnitPrice, input).amount == Number(NaN)
  {
  }

  /** Editing the amount directly stores it verbatim, so it can break the
      invariant: the asymmetry of the one-way derivation. */
  lemma AmountEditCanBreakMatch()
    ensures AmountMatches(InitialItem)
    ensures !AmountMatches(EditItem(InitialItem, Amount, FieldInput("5", true, Some(5.0))))
  {
  }

  /** An item {quantity 3, unit price 10} whose quantity is edited to 5 becomes
      {quantity 5, unit price 10, amount 50}. */
  lemma QuantityEditScenario(d: Value)
    ensures var it := Item(d, Number(Real(3.0)), Number(Real(10.0)), Number(Real(30.0)));
      EditItem(it, Quantity, FieldInput("5", true, Some(5.0)))
        == Item(d, Number(Real(5.0)), Number(Real(10.0)), Number(Real(50.0)))
  {
  }

  /** One call of handleItemChange, as the item table issues it. */
  datatype ItemEdit = ItemEdit(idx: nat, field: ItemField, input: FieldInput)

  /** The item list after handleItemChange: a copy in which item `idx` is edited. */
  function EditItems(items: seq<Item>, e: ItemEdit): (r: seq<Item>)
    requires e.idx < |items|
    ensures |r| == |items|
    ensures r[e.idx] == EditItem(items[e.idx], e.field, e.input)
    ensures forall i :: 0 <= i < |items| && i != e.idx ==> r[i] == items[i]
  {
    items[e.idx := EditItem(items[e.idx], e.field, e.input)]
  }

  /** The item list after a sequence of edits, applied in order. */
  function ApplyEdits(items: seq<Item>, edits: seq<ItemEdit>): (r: seq<Item>)
    requires forall k :: 0 <= k < |edits| ==> edits[k].idx < |items|
    ensures |r| == |items|
    decreases |edits|
  {
    if edits == [] then items
    else ApplyEdits(EditItems(items, edits[0]), edits[1..])
  }

  /** Every item's amount equals quantity times unit price after any sequence of
      edits the form can issue (an existing row, and one of the three editable
      columns: the amount column is display-only), starting from a list where it
      held. */
  lemma {:induction false} FormEditsKeepAmounts(items: seq<Item>, edits: seq<ItemEdit>)
    requires forall k :: 0 <= k < |edits| ==> edits[k].idx < |items| && edits[k].field != Amount
    requires AllAmountsMatch(items)
    ensures AllAmountsMatch(ApplyEdits(items, edits))
    decreases |edits|
  {
    if edits != [] {
      var next := EditItems(items, edits[0]);
      assert AllAmountsMatch(next) by {
        forall i | 0 <= i < |next| ensures AmountMatches(next[i]) {
          if i != edits[0].idx {
            assert next[i] == items[i];
          }
        }
      }
      assert forall k :: 0 <= k < |edits[1..]| ==> edits[1..][k] == edits[k + 1];
      FormEditsKeepAmounts(next, edits[1..]);
    }
  }

  // ---------------------------------------------------------------------------
  // The draft, the lists and the party selector

  const InitialItem: Item := Item(Text(""), Number(Real(1.0)), Number(Real(0.0)), Number(Real(0.0)))

  datatype InvoiceDraft = InvoiceDraft(
    invoice_type: string, customer_id: Option<string>, vendor_id: Option<string>,
    invoice_date: string, due_date: string, items: seq<Item>, tax_amount: Num,
    currency: string, description: string)

  /** The initial form data; `today` is the current date as the browser formats it. */
  function InitialDraft(today: string): (d: InvoiceDraft)
    ensures d.items == [InitialItem] && AllAmountsMatch(d.items)
    ensures d.invoice_type == "Sales" && d.currency == "USD" && d.tax_amount == Real(0.0)
    ensures d.customer_id.None? && d.vendor_id.None? && d.invoice_date == today
    ensures d.due_date == "" && d.description == ""
  {
    InvoiceDraft("Sales", None, None, today, "", [InitialItem], Real(0.0), "USD", "")
  }

  /** One entry of the invoice list. */
  datatype Invoice = Invoice(
    id: int, invoice_number: string, invoice_type: string, invoice_date: string,
    total_amount: real, status: string)

  /** A customer or vendor offered by the party selector. */
  datatype Party = Party(id: string, name: string)

  /** The options of the invoice type selector. */
  const InvoiceTypes: seq<string> := ["Sales", "Purchase"]

  /** The customer selector is rendered only for a sales invoice. */
  predicate CustomerSelectShown(d: InvoiceDraft) {
    d.invoice_type == "Sales"
  }

  /** The vendor selector is rendered only for a purchase invoice. */
  predicate VendorSelectShown(d: InvoiceDraft) {
    d.invoice_type == "Purchase"
  }

  /** The two selectors never show together, and one of them shows exactly when
      the invoice type is one of the selector's options. */
  lemma PartySelectorsExclusive(d: InvoiceDraft)
    ensures !(CustomerSelectShown(d) && VendorSelectShown(d))
    ensures CustomerSelectShown(d) || VendorSelectShown(d) <==> d.invoice_type in InvoiceTypes
    ensures CustomerSelectShown(InitialDraft(d.invoice_date))
  {
  }

  /** Switching the type hides a selector but does not clear its choice: a
      customer picked for a sales invoice is still posted with the draft once the
      type is switched to Purchase and a vendor is picked. */
  lemma SwitchedTypeKeepsOtherParty(d: InvoiceDraft, c: string, v: string)
    ensures var e := d.(customer_id := Some(c)).(invoice_type := "Purchase").(vendor_id := Some(v));
      VendorSelectShown(e) && !CustomerSelectShown(e)
      && CreateRequest(e).body.value.customer_id == Some(c)
      && CreateRequest(e).body.value.vendor_id == Some(v)
  {
  }

  type InvoiceRequest = Api.Request<InvoiceDraft>

  /** The three parallel fetches of fetchData, in order. */
  function LoadRequests(): (rs: seq<InvoiceRequest>)
    ensures |rs| == 3 && forall i :: 0 <= i < 3 ==> rs[i].verb == Api.Get
    ensures rs[0].path == "/invoices"
    ensures rs[1].path == "/vendors-customers/customers" && rs[2].path == "/vendors-customers/vendors"
  {
    [Api.Describe(Api.Invoice(Api.GetInvoices)),
     Api.Describe(Api.VendorCustomer(Api.GetCustomers)),
     Api.Describe(Api.VendorCustomer(Api.GetVendors))]
  }

  /** The create request: a POST to /invoices whose body is the draft. */
  function CreateRequest(d: InvoiceDraft): (r: InvoiceRequest)
    ensures r.verb == Api.Post && r.path == "/invoices" && r.body == Some(d)
  {
    Api.Describe(Api.Invoice(Api.CreateInvoice(d)))
  }

  // ---------------------------------------------------------------------------
  // The page

  class InvoicesPage {
    var invoices: seq<Invoice>
    var loading: bool
    var showForm: bool
    var customers: seq<Party>
    var vendors: seq<Party>
    var formData: InvoiceDraft

    /** The invariant every edit the form issues preserves. */
    ghost predicate AmountsMatch()
      reads this
    {
      AllAmountsMatch(formData.items)
    }

    /** Mounting: the initial state; fetchData issues LoadRequests(). */
    constructor (today: string)
      ensures invoices == [] && customers == [] && vendors == []
      ensures loading && !showForm && formData == InitialDraft(today)
      ensures AmountsMatch()
    {
      invoices, customers, vendors := [], [], [];
      loading, showForm := true, false;
      formData := InitialDraft(today);
    }

    /** fetchData once Promise.all settled: all three lists are set when every
        fetch succeeded, none of them otherwise; loading ends either way. */
    method ApplyLoad(inv: Outcome<seq<Invoice>>, cust: Outcome<seq<Party>>, vend: Outcome<seq<Party>>)
      modifies this
      ensures !loading
      ensures inv.Success? && cust.Success? && vend.Success? ==>
        invoices == inv.data && customers == cust.data && vendors == vend.data
      ensures !(inv.Success? && cust.Success? && vend.Success?) ==>
        invoices == old(invoices) && customers == old(customers) && vendors == old(vendors)
      ensures showForm == old(showForm) && formData == old(formData)
    {
      var all := All3(inv, cust, vend);
      if all.Success? {
        invoices := all.data.0;
        customers := all.data.1;
        vendors := all.data.2;
      }
      loading := false;
    }

    /** The header button: Create Invoice / Cancel. */
    method ToggleForm()
      modifies this
      ensures showForm == !old(showForm)
      ensures formData == old(formData) && invoices == old(invoices) && loading == old(loading)
      ensures customers == old(customers) && vendors == old(vendors)
    {
      showForm := !showForm;
    }

    method SelectInvoiceType(t: string)
      modifies this
      ensures formData == old(formData).(invoice_type := t)
      ensures showForm == old(showForm) && invoices == old(invoices) && loading == old(loading)
      ensures customers == old(customers) && vendors == old(vendors)
    {
      formData := formData.(invoice_type := t);
    }

    method SelectCustomer(id: string)
      modifies this
      ensures formData == old(formData).(customer_id := Some(id))
      ensures showForm == old(showForm) && invoices == old(invoices) && loading == old(loading)
      ensures customers == old(customers) && vendors == old(vendors)
    {
      formData := formData.(customer_id := Some(id));
    }

    method SelectVendor(id: string)
      modifies this
      ensures formData == old(formData).(vendor_id := Some(id))
      ensures showForm == old(showForm) && invoices == old(invoices) && loading == old(loading)
      ensures customers == old(customers) && vendors == old(vendors)
    {
      formData := formData.(vendor_id := Some(id));
    }

    method EditInvoiceDate(date: string)
      modifies this
      ensures formData == old(formData).(invoice_date := date)
      ensures showForm == old(showForm) && invoices == old(invoices) && loading == old(loading)
      ensures customers == old(customers) && vendors == old(vendors)
    {
      formData := formData.(invoice_date := date);
    }

    method EditDueDate(date: string)
      modifies this
      ensures formData == old(formData).(due_date := date)
      ensures showForm == old(showForm) && invoices == old(invoices) && loading == old(loading)
      ensures customers == old(customers) && vendors == old(vendors)
    {
      formData := formData.(due_date := date);
    }

    /** The tax field stores parseFloat of its input. */
    method EditTaxAmount(parsed: Option<real>)
      modifies this
      ensures formData == old(formData).(tax_amount := FromParse(parsed))
      ensures showForm == old(showForm) && invoices == old(invoices) && loading == old(loading)
      ensures customers == old(customers) && vendors == old(vendors)
    {
      formData := formData.(tax_amount := FromParse(parsed));
    }

    /** handleItemChange(idx, field, value): copies the item list, writes the
        field of item `idx` (and its amount, for quantity and unit price), and
        replaces the draft's items with the copy. */
    method HandleItemChange(idx: nat, field: ItemField, input: FieldInput)
      requires idx < |formData.items|
      modifies this
      ensures formData == old(formData).(items := EditItems(old(formData.items), ItemEdit(idx, field, input)))
      ensures |formData.items| == |old(formData.items)|
      ensures forall i :: 0 <= i < |formData.items| && i != idx ==> formData.items[i] == old(formData.items[i])
      ensures field != Amount && old(AmountsMatch()) ==> AmountsMatch()
      ensures showForm == old(showForm) && invoices == old(invoices) && loading == old(loading)
      ensures customers == old(customers) && vendors == old(vendors)
    {
      formData := formData.(items := EditItems(formData.items, ItemEdit(idx, field, input)));
    }

    /** Submitting the form (shown only while showForm holds). The browser's
        constraint validation holds the submission back while the required due
        date is empty. Otherwise handleCreateInvoice posts the current draft and,
        once the create call settled, refetches and collapses the form on
        success, keeping the draft; on failure nothing changes. */
    method Submit(outcome: Outcome<()>) returns (issued: seq<InvoiceRequest>)
      requires showForm
      modifies this
      ensures old(formData.due_date) == "" ==> issued == [] && showForm
      ensures old(formData.due_date) != "" ==>
        issued == [CreateRequest(old(formData))] + (if outcome.Success? then LoadRequests() else [])
      ensures showForm == (old(formData.due_date) == "" || outcome.Failure?)
      ensures formData == old(formData)
      ensures invoices == old(invoices) && loading == old(loading)
      ensures customers == old(customers) && vendors == old(vendors)
    {
      if formData.due_date == "" {
        return [];
      }
      issued := [CreateRequest(formData)];
      if outcome.Success? {
        issued := issued + LoadRequests();
        showForm := false;
      }
    }
  }
}
