/**
 * The user administration page: only administrators manage users, nobody is offered to delete
 * themselves, and an edit sends a patch whose password is present only when one was typed.
 */
module UserPage {
  import opened Wrappers
  import opened Models
  import opened Http
  import opened ResourceApi
  import opened CrudPage
  import opened Forms
  import opened UsersApi

  /** `currentUser?.role === 'admin'`. */
  predicate CanManageUsers(current: Option<User>) {
    current.Some? && current.value.role == Admin
  }

  /** The create and edit buttons follow `canManageUsers`; delete also needs another user's row. */
  function UserControls(current: Option<User>, row: User): (c: Controls)
    ensures c.create == c.edit
    ensures c.edit <==> current.Some? && current.value.role == Admin
    ensures c.delete <==> current.Some? && current.value.role == Admin && row.id != current.value.id
  {
    var manage := CanManageUsers(current);
    Controls(manage, manage, manage && row.id != current.value.id)
  }

  /** An administrator is offered every other user's delete button, never their own. */
  lemma DeleteOnlyOthers(admin: User, row: User)
    requires admin.role == Admin
    ensures UserControls(Some(admin), row).delete <==> row.id != admin.id
  {
  }

  /** The dialog's form for a new user. */
  function NewUserForm(): (r: Record)
    ensures r.Keys == {"username", "email", "first_name", "last_name", "role", "is_active", "password"}
    ensures "role" in r && r["role"] == Str(RoleName(Requester))
    ensures "is_active" in r && r["is_active"] == Bool(true)
    ensures forall k :: k in r && k != "role" && k != "is_active" ==> r[k] == Str("")
  {
    map["username" := Str(""), "email" := Str(""), "first_name" := Str(""), "last_name" := Str(""),
        "password" := Str(""), "role" := Str("requester"), "is_active" := Bool(true)]
  }

  /** `user ? {...user, password: ''} : {…defaults}`. */
  function UserForm(selected: Option<User>): (r: Record)
    ensures "password" in r && r["password"] == Str("")
    ensures selected.Some? ==> r.Keys == UserRecord(selected.value).Keys + {"password"}
    ensures selected.Some? ==> forall k :: k in r && k != "password" ==> r[k] == UserRecord(selected.value)[k]
    ensures selected.None? ==> "id" !in r && "role" in r && r["role"] == Str("requester")
  {
    if selected.Some? then UserRecord(selected.value)["password" := Str("")] else NewUserForm()
  }

  /** `type === 'checkbox' ? checked : value`. */
  function HandleUserChange(data: Record, name: string, value: string, isCheckbox: bool, checked: bool): (r: Record)
    ensures r.Keys == data.Keys + {name}
    ensures isCheckbox ==> r[name] == Bool(checked)
    ensures !isCheckbox ==> r[name] == Str(value)
    ensures forall k :: k in data && k != name ==> r[k] == data[k]
  {
    SetField(data, name, if isCheckbox then Bool(checked) else Str(value))
  }

  /** `handleSubmit`: when editing, a falsy password is deleted from the copy that is saved. */
  function SubmitData(editing: bool, form: Record): (r: Record)
    ensures "password" in r <==> "password" in form && (!editing || FieldTruthy(form, "password"))
    ensures forall k :: k in form && k != "password" ==> k in r && r[k] == form[k]
    ensures forall k :: k in r ==> k in form && r[k] == form[k]
  {
    if editing && !FieldTruthy(form, "password") then form - {"password"} else form
  }

  /** The fields an edit sends besides `id` and `password`. */
  const PatchFields: set<string> := {"username", "email", "first_name", "last_name", "role", "is_active"}

  /** `{id, username, email, first_name, last_name, role, is_active}`, plus a truthy password. */
  function UserPatch(id: string, data: Record): (r: Record)
    ensures "id" in r && r["id"] == Str(id)
    ensures forall k :: k in r <==> k == "id" || (k in PatchFields && k in data) || (k == "password" && FieldTruthy(data, "password"))
    ensures forall k :: k in r && k != "id" ==> k in data && r[k] == data[k]
  {
    var copied := map k | k in data && (k in PatchFields || (k == "password" && Truthy(data[k]))) :: data[k];
    copied["id" := Str(id)]
  }

  /** `handleSaveUser`'s call: the patch of the selected user, or a create with the form as is. */
  function UserSaveMutation(selected: Option<User>, data: Record): (m: Mutation)
    ensures m.Create? <==> selected.None?
    ensures m.Create? ==> m.body == data
    ensures m.Update? ==> m.arg == UserPatch(selected.value.id, data)
  {
    if selected.Some? then Update(UserPatch(selected.value.id, data)) else Create(data)
  }

  /** `handleSaveUser`: the page state changes as for every page; only the call differs. */
  method SaveUser(page: PageState<User>, data: Record, succeeded: bool) returns (call: Mutation)
    modifies page
    ensures call == UserSaveMutation(old(page.selected), data)
    ensures succeeded ==> !page.openForm && page.selected == None
    ensures !succeeded ==> page.openForm == old(page.openForm) && page.selected == old(page.selected)
    ensures page.openDeleteConfirm == old(page.openDeleteConfirm) && page.toDeleteId == old(page.toDeleteId)
  {
    call := UserSaveMutation(page.selected, data);
    page.Settle(succeeded);
  }

  /** Editing a user without typing a password sends no password. */
  lemma BlankPasswordNotSent(u: User, form: Record)
    requires !FieldTruthy(form, "password")
    ensures "password" !in UserPatch(u.id, SubmitData(true, form))
  {
  }

  /** A typed password is sent as typed. */
  lemma TypedPasswordSent(u: User, form: Record)
    requires FieldTruthy(form, "password")
    ensures var p := UserPatch(u.id, SubmitData(true, form));
            "password" in p && p["password"] == form["password"]
  {
  }

  /** Creating a user sends the whole form, password included. */
  lemma CreateSendsForm(form: Record)
    ensures UserSaveMutation(None, SubmitData(false, form)) == Create(form)
  {
  }

  /** The patch of an edited user goes to that user's admin URL, without `id` in the body. */
  lemma PatchGoesToAdminUrl(u: User, form: Record)
    ensures var q := MutationRequest(BindingUsers, UserSaveMutation(Some(u), form));
            q.url == "http://127.0.0.1:8000/api/v1/admin/users/" + u.id + "/" &&
            q.httpMethod == PATCH && "id" !in q.body.value
  {
  }

  const Unauthorized := "No autorizado. Debes ser un administrador para ver esta página."
  const LoadFailed := "Error al cargar usuarios."

  /** The list's error: a 401 wins over the server's detail, which wins over the default. */
  function ListErrorMessage(e: ApiError): (m: string)
    ensures e.status == Some(401) ==> m == Unauthorized
    ensures e.status != Some(401) && TruthyString(Detail(e)) ==> m == Detail(e).value
    ensures e.status != Some(401) && !TruthyString(Detail(e)) ==> m == LoadFailed
  {
    if e.status == Some(401) then Unauthorized
    else if TruthyString(Detail(e)) then Detail(e).value
    else LoadFailed
  }

  /** What the dialog's alert shows: a text, or the raw error data serialised as JSON. */
  datatype FormAlert = AlertText(text: string) | SerializedData(data: ErrorData)

  /**
   * `error ? data?.detail || error?.error || JSON.stringify(data) : null`, as the alert guard
   * `currentError && …` sees it: `JSON.stringify(undefined)` is `undefined`, so an error without
   * a detail, a transport text or any body shows no alert at all.
   */
  function FormErrorText(e: Option<ApiError>): (m: Option<FormAlert>)
    ensures e.None? ==> m.None?
    ensures e.Some? && TruthyString(Detail(e.value)) ==> m == Some(AlertText(Detail(e.value).value))
    ensures e.Some? && !TruthyString(Detail(e.value)) && TruthyString(e.value.error) ==> m == Some(AlertText(e.value.error.value))
    ensures e.Some? && !TruthyString(Detail(e.value)) && !TruthyString(e.value.error) && e.value.data.Some? ==>
              m == Some(SerializedData(e.value.data.value))
    ensures e.Some? && !TruthyString(Detail(e.value)) && !TruthyString(e.value.error) && e.value.data.None? ==> m.None?
  {
    if e.None? then None
    else if TruthyString(Detail(e.value)) then Some(AlertText(Detail(e.value).value))
    else if TruthyString(e.value.error) then Some(AlertText(e.value.error.value))
    else if e.value.data.Some? then Some(SerializedData(e.value.data.value))
    else None
  }
}
