/**
 * The asset list page: one predicate gates creating, editing and deleting, plus the dialog's
 * starting form and the error texts. Opening, saving and deleting go through `CrudPage.PageState`.
 */
module AssetPage {
  import opened Wrappers
  import opened Models
  import opened Http
  import opened ResourceApi
  import opened CrudPage
  import opened AssetsApi

  /** `user?.role === 'admin' || user?.role === 'manager'`. */
  predicate CanManageAssets(user: Option<User>) {
    user.Some? && (user.value.role == Admin || user.value.role == Manager)
  }

  /** The create button and both row buttons all follow `canManageAssets`. */
  function AssetControls(user: Option<User>): (c: Controls)
    ensures c.create == c.edit == c.delete
    ensures c.create <==> user.Some? && (user.value.role == Admin || user.value.role == Manager)
  {
    Controls(CanManageAssets(user), CanManageAssets(user), CanManageAssets(user))
  }

  /** The dialog's form for a new asset. */
  function NewAssetForm(): (r: Record)
    ensures r.Keys == {"name", "description", "location", "serial_number", "status", "asset_type"}
    ensures "status" in r && r["status"] == Str(AssetStatusName(Operational))
    ensures "asset_type" in r && r["asset_type"] == Str(AssetTypeName(Equipment))
    ensures forall k :: k in r && k != "status" && k != "asset_type" ==> r[k] == Str("")
  {
    map["name" := Str(""), "description" := Str(""), "location" := Str(""), "serial_number" := Str(""),
        "status" := Str("operational"), "asset_type" := Str("equipment")]
  }

  /** `asset || {…defaults}`. */
  function AssetForm(selected: Option<Asset>): (r: Record)
    ensures selected.Some? ==> r == AssetRecord(selected.value) && r["id"] == Str(selected.value.id)
    ensures selected.None? ==> "id" !in r && "status" in r && r["status"] == Str("operational")
    ensures selected.None? ==> "asset_type" in r && r["asset_type"] == Str("equipment")
  {
    if selected.Some? then AssetRecord(selected.value) else NewAssetForm()
  }

  /** An edited asset is patched at its own URL with the rest of the form. */
  lemma EditedAssetPatchesItsUrl(a: Asset, data: Record)
    requires "id" in data && data["id"] == Str(a.id)
    ensures MutationRequest(BindingAssets, SaveMutation(Some(a.id), data)) ==
            Request("http://127.0.0.1:8000/api/v1/assets/" + a.id + "/", PATCH, Some(data - {"id"}))
  {
    EditSaveWithOwnId(BindingAssets, a.id, data);
  }

  const SaveFailed := "Error al guardar el activo."

  function FormErrorText(e: ApiError): (m: string)
    ensures TruthyString(Detail(e)) ==> m == Detail(e).value
    ensures !TruthyString(Detail(e)) ==> m == SaveFailed
  {
    DetailOr(e, SaveFailed)
  }

  function LoadErrorText(e: ApiError): (m: string)
    ensures TruthyString(Detail(e)) ==> m == "Error al cargar los activos: " + Detail(e).value
    ensures !TruthyString(Detail(e)) ==> m == "Error al cargar los activos: Error desconocido."
  {
    "Error al cargar los activos: " + DetailOr(e, "Error desconocido.")
  }
}
