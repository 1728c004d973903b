/** The chart-of-accounts page of src/pages/ChartOfAccounts.js: the account list
    with its loading flag, the Add Account form toggle, the draft and its field
    edits, and account creation, which refetches and resets the draft on success. */
module ChartOfAccounts {
  import opened Common
  import Api

  /** One account of the list, as the backend returns it. */
  datatype Account = Account(
    id: int, account_code: string, account_name: string, account_type: string,
    balance: real, currency: string)

  /** The form's draft: the body of the create request. */
  datatype AccountDraft = AccountDraft(
    account_code: string, account_name: string, account_type: string,
    balance: Num, currency: string)

  const InitialDraft: AccountDraft := AccountDraft("", "", "Asset", Real(0.0), "USD")

  /** The options of the account type selector, in order. */
  const AccountTypes: seq<string> := ["Asset", "Liability", "Income", "Expense"]

  type AccountRequest = Api.Request<AccountDraft>

  /** The request fetchAccounts issues. */
  function FetchRequest(): (r: AccountRequest)
    ensures r.verb == Api.Get && r.path == "/finance/accounts" && r.body.None?
  {
    Api.Describe(Api.Finance(Api.GetAccounts))
  }

  /** The request handleCreateAccount issues: its body is exactly the draft. */
  function CreateRequest(d: AccountDraft): (r: AccountRequest)
    ensures r.verb == Api.Post && r.path == "/finance/accounts" && r.body == Some(d)
  {
    Api.Describe(Api.Finance(Api.CreateAccount(d)))
  }

  /** The browser submits the form only when both required text fields are filled. */
  predicate Submittable(d: AccountDraft) {
    d.account_code != "" && d.account_name != ""
  }

  lemma InitialDraftFacts()
    ensures !Submittable(InitialDraft)
    ensures InitialDraft.account_type == AccountTypes[0]
  {
  }

  class AccountsPage {
    var accounts: seq<Account>
    var loading: bool
    var showForm: bool
    var formData: AccountDraft

    /** Mounting: the initial state; the mount effect issues FetchRequest(). */
    constructor ()
      ensures accounts == [] && loading && !showForm && formData == InitialDraft
    {
      accounts := [];
      loading, showForm := true, false;
      formData := InitialDraft;
    }

    /** fetchAccounts once its request settled. */
    method ApplyFetch(response: Outcome<seq<Account>>)
      modifies this
      ensures !loading
      ensures accounts == (if response.Success? then response.data else old(accounts))
      ensures showForm == old(showForm) && formData == old(formData)
    {
      if response.Success? {
        accounts := response.data;
      }
      loading := false;
    }

    /** The header button: Add Account / Cancel. */
    method ToggleForm()
      modifies this
      ensures showForm == !old(showForm)
      ensures accounts == old(accounts) && loading == old(loading) && formData == old(formData)
    {
      showForm := !showForm;
    }

    /** Two clicks on the header button leave the page as it was. */
    method ToggleFormTwice()
      modifies this
      ensures showForm == old(showForm)
      ensures accounts == old(accounts) && loading == old(loading) && formData == old(formData)
    {
      ToggleForm();
      ToggleForm();
    }

    method EditCode(code: string)
      modifies this
      ensures formData == old(formData).(account_code := code)
      ensures accounts == old(accounts) && loading == old(loading) && showForm == old(showForm)
    {
      formData := formData.(account_code := code);
    }

    method EditName(name: string)
      modifies this
      ensures formData == old(formData).(account_name := name)
      ensures accounts == old(accounts) && loading == old(loading) && showForm == old(showForm)
    {
      formData := formData.(account_name := name);
    }

    method EditType(accountType: string)
      modifies this
      ensures formData == old(formData).(account_type := accountType)
      ensures accounts == old(accounts) && loading == old(loading) && showForm == old(showForm)
    {
      formData := formData.(account_type := accountType);
    }

    /** The balance field stores parseFloat of its input. */
    method EditBalance(parsed: Option<real>)
      modifies this
      ensures formData == old(formData).(balance := FromParse(parsed))
      ensures accounts == old(accounts) && loading == old(loading) && showForm == old(showForm)
    {
      formData := formData.(balance := FromParse(parsed));
    }

    /** Submitting the form (shown only while showForm holds). A draft with an
        empty required field is held back by the browser. Otherwise the draft is
        posted; on success the page refetches instead of appending locally,
        collapses the form and resets the draft; on failure nothing changes. */
    method Submit(outcome: Outcome<()>) returns (issued: seq<AccountRequest>)
      requires showForm
      modifies this
      ensures !Submittable(old(formData)) ==> issued == [] && showForm && formData == old(formData)
      ensures Submittable(old(formData)) && outcome.Success? ==>
        issued == [CreateRequest(old(formData)), FetchRequest()] && !showForm && formData == InitialDraft
      ensures Submittable(old(formData)) && outcome.Failure? ==>
        issued == [CreateRequest(old(formData))] && showForm && formData == old(formData)
      ensures accounts == old(accounts) && loading == old(loading)
    {
      if !Submittable(formData) {
        return [];
      }
      issued := [CreateRequest(formData)];
      if outcome.Success? {
        issued := issued + [FetchRequest()];
        showForm := false;
        formData := InitialDraft;
      }
    }
  }
}
