/**
 * The closed enumerations and the records of the asset-tracking dashboard
 * (src/types/index.ts). Each enumeration also has the string literal the
 * TypeScript union uses, because the pages compare records with raw
 * filter strings.
 */
module Types {
  import opened Collections

  datatype UserRole = Admin | BaseCommander | LogisticsOfficer

  const AllRoles: seq<UserRole> := [Admin, BaseCommander, LogisticsOfficer]

  datatype EquipmentType = Weapon | Vehicle | Ammunition | Communication | Medical

  datatype EquipmentStatus = Available | Assigned | Maintenance | Expended

  datatype TransferStatus = Pending | InTransit | Completed | Rejected

  datatype AssignmentStatus = Active | Returned | Lost

  function EquipmentTypeName(t: EquipmentType): string
  {
    match t
    case Weapon => "weapon"
    case Vehicle => "vehicle"
    case Ammunition => "ammunition"
    case Communication => "communication"
    case Medical => "medical"
  }

  /** Reads a raw string as an equipment type: exactly the five literals are
      accepted, so a string names at most one type. */
  function ParseEquipmentType(s: string): (r: Option<EquipmentType>)
    ensures forall t :: r == Some(t) <==> EquipmentTypeName(t) == s
    ensures r.Some? ==> s != ""
  {
    if s == "weapon" then Some(Weapon)
    else if s == "vehicle" then Some(Vehicle)
    else if s == "ammunition" then Some(Ammunition)
    else if s == "communication" then Some(Communication)
    else if s == "medical" then Some(Medical)
    else None
  }

  function TransferStatusName(s: TransferStatus): string
  {
    match s
    case Pending => "pending"
    case InTransit => "in-transit"
    case Completed => "completed"
    case Rejected => "rejected"
  }

  function AssignmentStatusName(s: AssignmentStatus): string
  {
    match s
    case Active => "active"
    case Returned => "returned"
    case Lost => "lost"
  }

  /** Different statuses have different literals, and none is empty. */
  lemma StatusNamesDistinct(a: TransferStatus, b: TransferStatus, c: AssignmentStatus, d: AssignmentStatus)
    ensures TransferStatusName(a) == TransferStatusName(b) ==> a == b
    ensures AssignmentStatusName(c) == AssignmentStatusName(d) ==> c == d
    ensures TransferStatusName(a) != "" && AssignmentStatusName(c) != ""
  {
  }

  datatype User = User(id: string, name: string, role: UserRole, baseId: Option<string>, email: string)

  datatype Base = Base(id: string, name: string, location: string, commanderId: Option<string>)

  /** An item of equipment; the TypeScript field `type` is `equipmentType` here. */
  datatype Equipment = Equipment(
    id: string, name: string, equipmentType: EquipmentType, serialNumber: string,
    status: EquipmentStatus, baseId: string, assignedTo: Option<string>)

  /** One dashboard row; the TypeScript field `assigned` (a Dafny keyword) is
      `assignedCount` here. */
  datatype EquipmentSummary = EquipmentSummary(
    equipmentType: EquipmentType,
    openingBalance: int, purchases: int, transferIn: int, transferOut: int,
    assignedCount: int, expended: int, closingBalance: int)

  datatype Purchase = Purchase(
    id: string, equipmentType: EquipmentType, quantity: int, baseId: string,
    date: string, purchaseOrder: string, supplier: string, cost: int)

  datatype Transfer = Transfer(
    id: string, equipmentType: EquipmentType, quantity: int, fromBaseId: string,
    toBaseId: string, date: string, authorizedBy: string, status: TransferStatus)

  datatype Assignment = Assignment(
    id: string, equipmentId: string, personnelId: string, dateAssigned: string,
    dateReturned: Option<string>, purpose: string, status: AssignmentStatus)

  datatype Expenditure = Expenditure(
    id: string, equipmentType: EquipmentType, quantity: int, baseId: string,
    date: string, authorizedBy: string, purpose: string)

  datatype DateRange = DateRange(start: string, end: string)

  /** The dashboard's filter value. `equipmentType` holds the raw string the
      filter editor stored, which the dashboard compares with type literals. */
  datatype DashboardFilters = DashboardFilters(
    dateRange: DateRange, baseId: Option<string>, equipmentType: Option<string>)

  /** JavaScript truthiness of an optional string: present and non-empty. */
  predicate Truthy(o: Option<string>)
  {
    o.Some? && o.value != ""
  }
}
