/** What each role is offered across the layout and the four list pages. */
module RoleMatrix {
  import opened Wrappers
  import opened Models
  import opened CrudPage
  import opened MainLayout
  import opened WorkOrderPage
  import opened AssetPage
  import opened PartPage
  import opened UserPage

  const NoControls := Controls(false, false, false)

  /** A requester sees no Usuarios entry and no create, edit or delete button anywhere. */
  lemma RequesterIsReadOnly(u: User, o: WorkOrder, row: User)
    requires u.role == Requester
    ensures |MenuItems(Some(u))| == 5
    ensures WorkOrderControls(Some(u), o) == NoControls
    ensures AssetControls(Some(u)) == NoControls && PartControls(Some(u)) == NoControls
    ensures UserControls(Some(u), row) == NoControls
  {
  }

  /** A technician may only edit the work orders assigned to them. */
  lemma TechnicianEditsOnlyAssignedOrders(u: User, o: WorkOrder, row: User)
    requires u.role == Technician
    ensures |MenuItems(Some(u))| == 5
    ensures WorkOrderControls(Some(u), o) == Controls(false, o.assignedTo == Some(u.id), false)
    ensures AssetControls(Some(u)) == NoControls && PartControls(Some(u)) == NoControls
    ensures UserControls(Some(u), row) == NoControls
  {
  }

  /**
   * A manager is shown the Usuarios entry, yet the user page offers them no button: only
   * administrators manage users.
   */
  lemma ManagerSeesUsersButCannotManageThem(u: User, o: WorkOrder, row: User)
    requires u.role == Manager
    ensures UsersItem in MenuItems(Some(u))
    ensures UserControls(Some(u), row) == NoControls
    ensures WorkOrderControls(Some(u), o) == Controls(true, true, true)
    ensures AssetControls(Some(u)).delete && PartControls(Some(u)).delete
  {
    assert MenuItems(Some(u))[4] == UsersItem;
  }

  /** An administrator is offered everything except deleting their own account. */
  lemma AdminManagesEverything(u: User, o: WorkOrder, row: User)
    requires u.role == Admin
    ensures UsersItem in MenuItems(Some(u))
    ensures WorkOrderControls(Some(u), o) == Controls(true, true, true)
    ensures AssetControls(Some(u)).delete && PartControls(Some(u)).delete
    ensures UserControls(Some(u), row) == Controls(true, true, row.id != u.id)
  {
    assert MenuItems(Some(u))[4] == UsersItem;
  }

  /** With nobody logged in, no page offers any button. */
  lemma AnonymousIsReadOnly(o: WorkOrder, row: User)
    ensures WorkOrderControls(None, o) == NoControls
    ensures AssetControls(None) == NoControls && PartControls(None) == NoControls
    ensures UserControls(None, row) == NoControls
  {
  }
}
