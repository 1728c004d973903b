/** The user management page of src/pages/UserManagement.js: the user list with
    its loading flag, the Add User form and its draft, user creation through the
    register endpoint, and the confirmation-gated delete. */
module UserManagement {
  import opened Common
  import Api

  /** One user of the list, as the backend returns it. */
  datatype User = User(id: string, name: string, email: string, role: string, is_active: bool)

  /** The form's draft: the body of the register request. */
  datatype UserDraft = UserDraft(name: string, email: string, password: string, role: string)

  const InitialDraft: UserDraft := UserDraft("", "", "", "user")

  /** The values of the role selector, in order. */
  const Roles: seq<string> := ["user", "Admin", "Finance Manager", "Project Manager"]

  type UserRequest = Api.Request<UserDraft>

  function FetchRequest(): (r: UserRequest)
    ensures r.verb == Api.Get && r.path == "/users" && r.body.None?
  {
    Api.Describe(Api.Auth(Api.GetUsers))
  }

  /** The create request: a register call whose body is exactly the draft. */
  function CreateRequest(d: UserDraft): (r: UserRequest)
    ensures r.verb == Api.Post && r.path == "/users/register" && r.body == Some(d)
  {
    Api.Describe(Api.Auth(Api.Register(d)))
  }

  function DeleteRequest(id: string): (r: UserRequest)
    ensures r.verb == Api.Delete && r.path == "/users/" + id && r.body.None?
  {
    Api.Describe(Api.Auth(Api.DeleteUser(id)))
  }

  /** The browser submits the form only when the three required fields are filled. */
  predicate Submittable(d: UserDraft) {
    d.name != "" && d.email != "" && d.password != ""
  }

  /** The status cell of a row. */
  function StatusCell(u: User): string
  {
    if u.is_active then "Active" else "Inactive"
  }

  /** Two rows show the same status exactly when both users are active or both
      are not; nothing else about a user shows in the cell. */
  lemma StatusCellDistinguishes(u: User, v: User)
    ensures StatusCell(u) == StatusCell(v) <==> u.is_active == v.is_active
    ensures StatusCell(u) in {"Active", "Inactive"}
  {
  }

  /** The draft starts with the first role of the selector, and the selector
      offers four distinct options (the administrator's is the one the shell
      compares against). */
  lemma RoleOptions()
    ensures InitialDraft.role == Roles[0]
    ensures |Roles| == 4 && forall i, j :: 0 <= i < j < |Roles| ==> Roles[i] != Roles[j]
    ensures "Admin" in Roles && "admin" !in Roles
  {
  }

  class UsersPage {
    var users: seq<User>
    var loading: bool
    var showForm: bool
    var formData: UserDraft

    /** Mounting: the initial state; the mount effect issues FetchRequest(). */
    constructor ()
      ensures users == [] && loading && !showForm && formData == InitialDraft
    {
      users := [];
      loading, showForm := true, false;
      formData := InitialDraft;
    }

    /** fetchUsers once its request settled. */
    method ApplyFetch(response: Outcome<seq<User>>)
      modifies this
      ensures !loading
      ensures users == (if response.Success? then response.data else old(users))
      ensures showForm == old(showForm) && formData == old(formData)
    {
      if response.Success? {
        users := response.data;
      }
      loading := false;
    }

    /** The header button: Add User / Cancel. */
    method ToggleForm()
      modifies this
      ensures showForm == !old(showForm)
      ensures users == old(users) && loading == old(loading) && formData == old(formData)
    {
      showForm := !showForm;
    }

    method EditName(name: string)
      modifies this
      ensures formData == old(formData).(name := name)
      ensures users == old(users) && loading == old(loading) && showForm == old(showForm)
    {
      formData := formData.(name := name);
    }

    method EditEmail(email: string)
      modifies this
      ensures formData == old(formData).(email := email)
      ensures users == old(users) && loading == old(loading) && showForm == old(showForm)
    {
      formData := formData.(email := email);
    }

    method EditPassword(password: string)
      modifies this
      ensures formData == old(formData).(password := password)
      ensures users == old(users) && loading == old(loading) && showForm == old(showForm)
    {
      formData := formData.(password := password);
    }

    method EditRole(role: string)
      modifies this
      ensures formData == old(formData).(role := role)
      ensures users == old(users) && loading == old(loading) && showForm == old(showForm)
    {
      formData := formData.(role := role);
    }

    /** Submitting the form (shown only while showForm holds). A draft with an
        empty required field is held back by the browser. Otherwise the draft is
        registered; on success the page refetches, collapses the form and resets
        the draft; on failure nothing changes. */
    method Submit(outcome: Outcome<()>) returns (issued: seq<UserRequest>)
      requires showForm
      modifies this
      ensures !Submittable(old(formData)) ==> issued == [] && showForm && formData == old(formData)
      ensures Submittable(old(formData)) && outcome.Success? ==>
        issued == [CreateRequest(old(formData)), FetchRequest()] && !showForm && formData == InitialDraft
      ensures Submittable(old(formData)) && outcome.Failure? ==>
        issued == [CreateRequest(old(formData))] && showForm && formData == old(formData)
      ensures users == old(users) && loading == old(loading)
    {
      if !Submittable(formData) {
        return [];
      }
      issued := [CreateRequest(formData)];
      if outcome.Success? {
        issued := issued + [FetchRequest()];
        showForm := false;
        formData := InitialDraft;
      }
    }

    /** handleDeleteUser(id): `confirmed` is the answer to the confirmation
        dialog. A declined dialog issues nothing; an accepted one issues the
        delete and, on success, a refetch. The list itself is never edited. */
    method Delete(id: string, confirmed: bool, outcome: Outcome<()>) returns (issued: seq<UserRequest>)
      modifies this
      ensures !confirmed ==> issued == []
      ensures confirmed && outcome.Success? ==> issued == [DeleteRequest(id), FetchRequest()]
      ensures confirmed && outcome.Failure? ==> issued == [DeleteRequest(id)]
      ensures users == old(users) && loading == old(loading)
      ensures showForm == old(showForm) && formData == old(formData)
    {
      issued := [];
      if confirmed {
        issued := [DeleteRequest(id)];
        if outcome.Success? {
          issued := issued + [FetchRequest()];
        }
      }
    }
  }
}
