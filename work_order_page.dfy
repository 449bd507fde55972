/**
 * The work-order list page: who may create, edit and delete orders, the form the edit dialog
 * starts from, and the error texts it shows. Opening, saving and deleting go through
 * `CrudPage.PageState`.
 */
module WorkOrderPage {
  import opened Wrappers
  import opened Models
  import opened Http
  import opened ResourceApi
  import opened CrudPage
  import opened WorkOrdersApi

  /** `user?.role === 'admin' || user?.role === 'manager'`. */
  predicate CanManageWorkOrders(user: Option<User>) {
    user.Some? && (user.value.role == Admin || user.value.role == Manager)
  }

  /** A manager edits every order; a technician only the orders assigned to them. */
  predicate CanEditWorkOrder(user: Option<User>, o: WorkOrder) {
    CanManageWorkOrders(user) ||
    (user.Some? && user.value.role == Technician && o.assignedTo == Some(user.value.id))
  }

  /** The create button and a row's edit and delete buttons. */
  function WorkOrderControls(user: Option<User>, o: WorkOrder): (c: Controls)
    ensures c.create == c.delete == CanManageWorkOrders(user)
    ensures c.edit <==> c.delete || (user.Some? && user.value.role == Technician && o.assignedTo == Some(user.value.id))
  {
    Controls(CanManageWorkOrders(user), CanEditWorkOrder(user, o), CanManageWorkOrders(user))
  }

  /** Whoever may delete an order may also edit it. */
  lemma DeleterCanEdit(user: Option<User>, o: WorkOrder)
    ensures WorkOrderControls(user, o).delete ==> WorkOrderControls(user, o).edit
  {
  }

  /** A technician edits exactly the orders assigned to them, and never creates or deletes one. */
  lemma TechnicianControls(u: User, o: WorkOrder)
    requires u.role == Technician
    ensures var c := WorkOrderControls(Some(u), o);
            !c.create && !c.delete && (c.edit <==> o.assignedTo == Some(u.id))
  {
  }

  /** The dialog's form for a new order. */
  function NewWorkOrderForm(): (r: Record)
    ensures r.Keys == {"title", "description", "asset", "assigned_to", "status", "priority", "due_date", "completed_at"}
    ensures "status" in r && r["status"] == Str(OrderStatusName(Open))
    ensures "priority" in r && r["priority"] == Str(PriorityName(Medium))
    ensures forall k :: k in r && k != "status" && k != "priority" ==> r[k] == Str("")
  {
    map["title" := Str(""), "description" := Str(""), "asset" := Str(""), "assigned_to" := Str(""),
        "due_date" := Str(""), "completed_at" := Str(""),
        "status" := Str("open"), "priority" := Str("medium")]
  }

  /** `workOrder || {…defaults}`: the order being edited, or the new-order defaults. */
  function WorkOrderForm(selected: Option<WorkOrder>): (r: Record)
    ensures selected.Some? ==> r == WorkOrderRecord(selected.value) && r["id"] == Str(selected.value.id)
    ensures selected.None? ==> "id" !in r && "status" in r && r["status"] == Str("open")
    ensures selected.None? ==> "priority" in r && r["priority"] == Str("medium")
  {
    if selected.Some? then WorkOrderRecord(selected.value) else NewWorkOrderForm()
  }

  /** An edited order, whatever fields were changed besides `id`, is patched at its own URL. */
  lemma EditedOrderPatchesItsUrl(o: WorkOrder, data: Record)
    requires "id" in data && data["id"] == Str(o.id)
    ensures MutationRequest(BindingWorkOrders, SaveMutation(Some(o.id), data)) ==
            Request("http://127.0.0.1:8000/api/v1/work-orders/" + o.id + "/", PATCH, Some(data - {"id"}))
  {
    EditSaveWithOwnId(BindingWorkOrders, o.id, data);
  }

  const SaveFailed := "Error al guardar la orden de trabajo."

  /** The form dialog's alert: the server's detail, else a fixed text. */
  function FormErrorText(e: ApiError): (m: string)
    ensures TruthyString(Detail(e)) ==> m == Detail(e).value
    ensures !TruthyString(Detail(e)) ==> m == SaveFailed
  {
    DetailOr(e, SaveFailed)
  }

  /** `error?.data?.detail` of a query that may not have failed. */
  function QueryDetail(e: Option<ApiError>): (d: Option<string>)
    ensures e.None? ==> d.None?
    ensures e.Some? ==> d == Detail(e.value)
  {
    if e.Some? then Detail(e.value) else None
  }

  /**
   * `(flag as any)?.data?.detail` where the flag is a query's `isError` boolean: a boolean has
   * no `data` property, so the lookup is always `undefined`.
   */
  function FlagDetail(failed: bool): (d: Option<string>)
    ensures d.None?
  {
    None
  }

  /**
   * The load-failure alert. The first candidate is the orders query's `error` object; the
   * assets and technicians candidates are those queries' `isError` flags, renamed at their
   * destructuring, so they never contribute a detail.
   */
  function LoadErrorText(orders: Option<ApiError>, assetsFailed: bool, techniciansFailed: bool): (m: string)
    ensures TruthyString(QueryDetail(orders)) ==> m == "Error al cargar datos: " + QueryDetail(orders).value
    ensures !TruthyString(QueryDetail(orders)) ==> m == "Error al cargar datos: Error desconocido."
  {
    "Error al cargar datos: " +
    FirstTruthy([QueryDetail(orders), FlagDetail(assetsFailed), FlagDetail(techniciansFailed)], "Error desconocido.")
  }

  /**
   * When only the assets or the technicians query failed, the alert cannot say why: it shows
   * the fixed fallback whatever those queries' errors carried.
   */
  lemma AuxiliaryFailureHasNoDetail(assetsFailed: bool, techniciansFailed: bool)
    ensures LoadErrorText(None, assetsFailed, techniciansFailed) == "Error al cargar datos: Error desconocido."
  {
  }
}
