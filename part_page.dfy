/**
 * The inventory (parts) list page: its permission predicate, the numeric coercion of the form's
 * count fields, the dialog's starting form and the error texts. Opening, saving and deleting go
 * through `CrudPage.PageState`.
 */
module PartPage {
  import opened Wrappers
  import opened Models
  import opened Http
  import opened ResourceApi
  import opened CrudPage
  import opened Forms
  import opened JsNumbers
  import opened PartsApi

  /** `user?.role === 'admin' || user?.role === 'manager'`. */
  predicate CanManageParts(user: Option<User>) {
    user.Some? && (user.value.role == Admin || user.value.role == Manager)
  }

  /** The create button and both row buttons all follow `canManageParts`. */
  function PartControls(user: Option<User>): (c: Controls)
    ensures c.create == c.edit == c.delete
    ensures c.create <==> user.Some? && (user.value.role == Admin || user.value.role == Manager)
  {
    Controls(CanManageParts(user), CanManageParts(user), CanManageParts(user))
  }

  predicate IsCountField(name: string) {
    name == "quantity" || name == "reorder_point"
  }

  /** The part form's change handler: the two count fields store `parseInt(value, 10) || 0`. */
  function HandlePartChange(data: Record, name: string, value: string): (r: Record)
    ensures r.Keys == data.Keys + {name}
    ensures IsCountField(name) ==> r[name] == Num(ParseIntOrZero(value))
    ensures !IsCountField(name) ==> r[name] == Str(value)
    ensures forall k :: k in data && k != name ==> r[k] == data[k]
  {
    if IsCountField(name) then SetField(data, name, Num(ParseIntOrZero(value)))
    else HandleChange(data, name, value)
  }

  /** Typing the decimal text of a count stores that count. */
  lemma TypedCountIsStored(data: Record, name: string, n: int)
    requires IsCountField(name)
    ensures HandlePartChange(data, name, IntText(n))[name] == Num(n)
  {
    ParseIntText(n);
  }

  /** Clearing a count field stores 0. */
  lemma ClearedCountIsZero(data: Record, name: string)
    requires IsCountField(name)
    ensures HandlePartChange(data, name, "")[name] == Num(0)
  {
  }

  /** Text that does not start with a number (after blanks) is stored as 0. */
  lemma NonNumericCountIsZero(data: Record, name: string, value: string)
    requires IsCountField(name)
    requires value != [] && !IsSpace(value[0]) && !IsDigit(value[0]) && value[0] != '-' && value[0] != '+'
    ensures HandlePartChange(data, name, value)[name] == Num(0)
  {
    assert TrimStart(value) == value;
  }

  /** The dialog's form for a new part. */
  function NewPartForm(): (r: Record)
    ensures r.Keys == {"name", "sku", "description", "quantity", "location", "unit_cost", "supplier",
                       "reorder_point", "last_reordered_date", "notes"}
    ensures "quantity" in r && r["quantity"] == Num(0)
    ensures "reorder_point" in r && r["reorder_point"] == Num(0)
    ensures forall k :: k in r && !IsCountField(k) ==> r[k] == Str("")
  {
    map["name" := Str(""), "sku" := Str(""), "description" := Str(""), "location" := Str(""),
        "unit_cost" := Str(""), "supplier" := Str(""), "last_reordered_date" := Str(""),
        "notes" := Str(""), "quantity" := Num(0), "reorder_point" := Num(0)]
  }

  /** `x || ''` for an optional text. */
  function TextOrEmpty(s: Option<string>): (v: Value)
    ensures TruthyString(s) ==> v == Str(s.value)
    ensures !TruthyString(s) ==> v == Str("")
  {
    if TruthyString(s) then Str(s.value) else Str("")
  }

  /**
   * The edit form: the part with `unit_cost` and `last_reordered_date` turned into text, an
   * absent one into `''`. The date's normalisation through `Date` is not modelled (the stored
   * `YYYY-MM-DD` text is kept).
   */
  function PartForm(selected: Option<Part>): (r: Record)
    ensures selected.Some? ==> "id" in r && r["id"] == Str(selected.value.id)
    ensures selected.Some? ==> "quantity" in r && r["quantity"] == Num(selected.value.quantity)
    ensures selected.Some? ==> "unit_cost" in r && r["unit_cost"] == TextOrEmpty(selected.value.unitCost)
    ensures selected.Some? ==> "last_reordered_date" in r &&
                               r["last_reordered_date"] == TextOrEmpty(selected.value.lastReorderedDate)
    ensures selected.None? ==> "id" !in r && "quantity" in r && r["quantity"] == Num(0)
  {
    if selected.Some? then
      var p := selected.value;
      assert "unit_cost" != "id" && "unit_cost" != "quantity" by {
        assert |"unit_cost"| != |"id"| && |"unit_cost"| != |"quantity"|;
      }
      assert "last_reordered_date" != "id" && "last_reordered_date" != "quantity" by {
        assert |"last_reordered_date"| != |"id"| && |"last_reordered_date"| != |"quantity"|;
      }
      PartRecord(p)["unit_cost" := TextOrEmpty(p.unitCost)]
                   ["last_reordered_date" := TextOrEmpty(p.lastReorderedDate)]
    else NewPartForm()
  }

  /** An edited part is patched at its own URL with the rest of the form. */
  lemma EditedPartPatchesItsUrl(p: Part, data: Record)
    requires "id" in data && data["id"] == Str(p.id)
    ensures MutationRequest(BindingParts, SaveMutation(Some(p.id), data)) ==
            Request("http://127.0.0.1:8000/api/v1/parts/" + p.id + "/", PATCH, Some(data - {"id"}))
  {
    EditSaveWithOwnId(BindingParts, p.id, data);
  }

  function LoadErrorText(e: ApiError): (m: string)
    ensures TruthyString(Detail(e)) ==> m == "Error al cargar el inventario: " + Detail(e).value
    ensures !TruthyString(Detail(e)) ==> m == "Error al cargar el inventario: Error desconocido."
  {
    "Error al cargar el inventario: " + DetailOr(e, "Error desconocido.")
  }
}
