/**
 * The records the client exchanges with the maintenance API (users, assets, work orders, parts),
 * their enumerations, and the loosely typed JSON object (`Record`) that forms edit and requests carry.
 */
module Models {
  import opened Wrappers
  import JsNumbers

  // ---------------------------------------------------------------------------------------------
  // JSON-like values. A key that holds `undefined` in JavaScript is an absent key here: the
  // serialised request body and the object spread both behave as if it were missing.

  datatype Value = Str(s: string) | Num(n: int) | Bool(b: bool) | Null

  type Record = map<string, Value>

  /** JavaScript truthiness of a value. */
  predicate Truthy(v: Value) {
    match v
    case Str(s) => s != ""
    case Num(n) => n != 0
    case Bool(b) => b
    case Null => false
  }

  /** `r.k` — the value under `k`, if any. */
  function Field(r: Record, k: string): Option<Value> {
    if k in r then Some(r[k]) else None
  }

  /** Truthiness of `r.k`, where a missing key reads as `undefined`. */
  predicate FieldTruthy(r: Record, k: string) {
    k in r && Truthy(r[k])
  }

  /** The text a template literal `${v}` produces for a field value (an absent key prints `undefined`). */
  function TemplateText(v: Option<Value>): (t: string)
    ensures v.Some? && v.value.Str? ==> t == v.value.s
  {
    match v
    case None => "undefined"
    case Some(Str(s)) => s
    case Some(Num(n)) => JsNumbers.IntText(n)
    case Some(Bool(b)) => if b then "true" else "false"
    case Some(Null) => "null"
  }

  /** A record extended with `k: v` when the optional field is present. */
  function PutOpt(r: Record, k: string, v: Option<Value>): Record {
    if v.Some? then r[k := v.value] else r
  }

  function OptStr(s: Option<string>): Option<Value> {
    if s.Some? then Some(Str(s.value)) else None
  }

  function OptBool(b: Option<bool>): Option<Value> {
    if b.Some? then Some(Bool(b.value)) else None
  }

  function OptNum(n: Option<int>): Option<Value> {
    if n.Some? then Some(Num(n.value)) else None
  }

  // ---------------------------------------------------------------------------------------------
  // Users

  datatype Role = Admin | Manager | Technician | Requester

  function RoleName(r: Role): string {
    match r
    case Admin => "admin"
    case Manager => "manager"
    case Technician => "technician"
    case Requester => "requester"
  }

  function ParseRole(s: string): (r: Option<Role>)
    ensures r.Some? ==> RoleName(r.value) == s
  {
    if s == "admin" then Some(Admin)
    else if s == "manager" then Some(Manager)
    else if s == "technician" then Some(Technician)
    else if s == "requester" then Some(Requester)
    else None
  }

  lemma RoleNameRoundTrip(r: Role)
    ensures ParseRole(RoleName(r)) == Some(r)
  {
  }

  datatype User = User(
    id: string,
    username: string,
    email: string,
    firstName: Option<string>,
    lastName: Option<string>,
    role: Role,
    isActive: Option<bool>,
    isStaff: Option<bool>,
    fullName: Option<string>,
    profilePictureUrl: Option<string>)

  /** A user as the JSON object the forms start from. */
  function UserRecord(u: User): (r: Record)
    ensures "id" in r && r["id"] == Str(u.id) && "role" in r && r["role"] == Str(RoleName(u.role))
  {
    var r1 := PutOpt(map[], "first_name", OptStr(u.firstName));
    var r2 := PutOpt(r1, "last_name", OptStr(u.lastName));
    var r3 := PutOpt(r2, "is_active", OptBool(u.isActive));
    var r4 := PutOpt(r3, "is_staff", OptBool(u.isStaff));
    var r5 := PutOpt(r4, "fullName", OptStr(u.fullName));
    var r6 := PutOpt(r5, "profilePictureUrl", OptStr(u.profilePictureUrl));
    assert "role" != "id" by { assert |"role"| != |"id"|; }
    r6["username" := Str(u.username)]["email" := Str(u.email)]
      ["role" := Str(RoleName(u.role))]["id" := Str(u.id)]
  }

  // ---------------------------------------------------------------------------------------------
  // Assets

  datatype AssetStatus = Operational | UnderMaintenance | Retired | Critical

  function AssetStatusName(s: AssetStatus): string {
    match s
    case Operational => "operational"
    case UnderMaintenance => "under_maintenance"
    case Retired => "retired"
    case Critical => "critical"
  }

  function ParseAssetStatus(s: string): (r: Option<AssetStatus>)
    ensures r.Some? ==> AssetStatusName(r.value) == s
  {
    if s == "operational" then Some(Operational)
    else if s == "under_maintenance" then Some(UnderMaintenance)
    else if s == "retired" then Some(Retired)
    else if s == "critical" then Some(Critical)
    else None
  }

  lemma AssetStatusNameRoundTrip(x: AssetStatus)
    ensures ParseAssetStatus(AssetStatusName(x)) == Some(x)
  {
  }

  datatype AssetType = Vehicle | Machine | Building | Tool | Equipment | OtherAsset

  function AssetTypeName(t: AssetType): string {
    match t
    case Vehicle => "vehicle"
    case Machine => "machine"
    case Building => "building"
    case Tool => "tool"
    case Equipment => "equipment"
    case OtherAsset => "other"
  }

  function ParseAssetType(s: string): (r: Option<AssetType>)
    ensures r.Some? ==> AssetTypeName(r.value) == s
  {
    if s == "vehicle" then Some(Vehicle)
    else if s == "machine" then Some(Machine)
    else if s == "building" then Some(Building)
    else if s == "tool" then Some(Tool)
    else if s == "equipment" then Some(Equipment)
    else if s == "other" then Some(OtherAsset)
    else None
  }

  lemma AssetTypeNameRoundTrip(x: AssetType)
    ensures ParseAssetType(AssetTypeName(x)) == Some(x)
  {
  }

  datatype Asset = Asset(
    id: string,
    name: string,
    description: Option<string>,
    location: string,
    serialNumber: Option<string>,
    purchaseDate: Option<string>,
    lastMaintenanceDate: Option<string>,
    nextMaintenanceDate: Option<string>,
    status: AssetStatus,
    assetType: AssetType,
    manufacturer: Option<string>,
    model: Option<string>,
    warrantyEndDate: Option<string>,
    createdAt: Option<string>,
    updatedAt: Option<string>)

  function AssetRecord(a: Asset): (r: Record)
    ensures "id" in r && r["id"] == Str(a.id)
  {
    var r1 := PutOpt(map[], "description", OptStr(a.description));
    var r2 := PutOpt(r1, "serial_number", OptStr(a.serialNumber));
    var r3 := PutOpt(r2, "purchase_date", OptStr(a.purchaseDate));
    var r4 := PutOpt(r3, "last_maintenance_date", OptStr(a.lastMaintenanceDate));
    var r5 := PutOpt(r4, "next_maintenance_date", OptStr(a.nextMaintenanceDate));
    var r6 := PutOpt(r5, "manufacturer", OptStr(a.manufacturer));
    var r7 := PutOpt(r6, "model", OptStr(a.model));
    var r8 := PutOpt(r7, "warranty_end_date", OptStr(a.warrantyEndDate));
    var r9 := PutOpt(r8, "created_at", OptStr(a.createdAt));
    var r10 := PutOpt(r9, "updated_at", OptStr(a.updatedAt));
    r10["name" := Str(a.name)]["location" := Str(a.location)]
       ["status" := Str(AssetStatusName(a.status))]
       ["asset_type" := Str(AssetTypeName(a.assetType))]["id" := Str(a.id)]
  }

  // ---------------------------------------------------------------------------------------------
  // Work orders. The status set is the one the `WorkOrder` record uses; the separate
  // `WorkOrderStatus` type alias of the source is not used anywhere and is not modelled.

  datatype OrderStatus = Open | InProgress | OnHold | Completed | Cancelled

  function OrderStatusName(s: OrderStatus): string {
    match s
    case Open => "open"
    case InProgress => "in_progress"
    case OnHold => "on_hold"
    case Completed => "completed"
    case Cancelled => "cancelled"
  }

  function ParseOrderStatus(s: string): (r: Option<OrderStatus>)
    ensures r.Some? ==> OrderStatusName(r.value) == s
  {
    if s == "open" then Some(Open)
    else if s == "in_progress" then Some(InProgress)
    else if s == "on_hold" then Some(OnHold)
    else if s == "completed" then Some(Completed)
    else if s == "cancelled" then Some(Cancelled)
    else None
  }

  lemma OrderStatusNameRoundTrip(x: OrderStatus)
    ensures ParseOrderStatus(OrderStatusName(x)) == Some(x)
  {
  }

  datatype Priority = Low | Medium | High | Urgent

  function PriorityName(p: Priority): string {
    match p
    case Low => "low"
    case Medium => "medium"
    case High => "high"
    case Urgent => "urgent"
  }

  function ParsePriority(s: string): (r: Option<Priority>)
    ensures r.Some? ==> PriorityName(r.value) == s
  {
    if s == "low" then Some(Low)
    else if s == "medium" then Some(Medium)
    else if s == "high" then Some(High)
    else if s == "urgent" then Some(Urgent)
    else None
  }

  lemma PriorityNameRoundTrip(x: Priority)
    ensures ParsePriority(PriorityName(x)) == Some(x)
  {
  }

  datatype WorkOrder = WorkOrder(
    id: string,
    title: string,
    description: Option<string>,
    asset: string,
    assetName: Option<string>,
    assignedTo: Option<string>,
    assignedToUsername: Option<string>,
    status: OrderStatus,
    priority: Priority,
    dueDate: Option<string>,
    completedAt: Option<string>,
    createdAt: Option<string>,
    updatedAt: Option<string>)

  function WorkOrderRecord(w: WorkOrder): (r: Record)
    ensures "id" in r && r["id"] == Str(w.id)
  {
    var r1 := PutOpt(map[], "description", OptStr(w.description));
    var r2 := PutOpt(r1, "asset_name", OptStr(w.assetName));
    var r3 := PutOpt(r2, "assigned_to", OptStr(w.assignedTo));
    var r4 := PutOpt(r3, "assigned_to_username", OptStr(w.assignedToUsername));
    var r5 := PutOpt(r4, "due_date", OptStr(w.dueDate));
    var r6 := PutOpt(r5, "completed_at", OptStr(w.completedAt));
    var r7 := PutOpt(r6, "created_at", OptStr(w.createdAt));
    var r8 := PutOpt(r7, "updated_at", OptStr(w.updatedAt));
    r8["title" := Str(w.title)]["asset" := Str(w.asset)]
      ["status" := Str(OrderStatusName(w.status))]
      ["priority" := Str(PriorityName(w.priority))]["id" := Str(w.id)]
  }

  // ---------------------------------------------------------------------------------------------
  // Parts

  datatype Part = Part(
    id: string,
    name: string,
    sku: Option<string>,
    description: Option<string>,
    quantity: int,
    location: Option<string>,
    unitCost: Option<string>,
    supplier: Option<string>,
    reorderPoint: Option<int>,
    lastReorderedDate: Option<string>,
    notes: Option<string>,
    createdAt: Option<string>,
    updatedAt: Option<string>)

  function PartRecord(p: Part): (r: Record)
    ensures "id" in r && r["id"] == Str(p.id) && "quantity" in r && r["quantity"] == Num(p.quantity)
  {
    var r1 := PutOpt(map[], "sku", OptStr(p.sku));
    var r2 := PutOpt(r1, "description", OptStr(p.description));
    var r3 := PutOpt(r2, "location", OptStr(p.location));
    var r4 := PutOpt(r3, "unit_cost", OptStr(p.unitCost));
    var r5 := PutOpt(r4, "supplier", OptStr(p.supplier));
    var r6 := PutOpt(r5, "reorder_point", OptNum(p.reorderPoint));
    var r7 := PutOpt(r6, "last_reordered_date", OptStr(p.lastReorderedDate));
    var r8 := PutOpt(r7, "notes", OptStr(p.notes));
    var r9 := PutOpt(r8, "created_at", OptStr(p.createdAt));
    var r10 := PutOpt(r9, "updated_at", OptStr(p.updatedAt));
    assert "quantity" != "id" by { assert |"quantity"| != |"id"|; }
    r10["name" := Str(p.name)]["quantity" := Num(p.quantity)]["id" := Str(p.id)]
  }
}
