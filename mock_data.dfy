/**
 * The seeded in-memory collections (src/mock/mockData.ts), used as the
 * initial page state and in the concrete example lemmas. Avatar URLs are
 * presentation and are not kept.
 */
module MockData {
  import opened Collections
  import opened Types

  const MockUsers: seq<User> := [
    User("1", "General Smith", Admin, None, "general.smith@military.gov"),
    User("2", "Colonel Johnson", BaseCommander, Some("base1"), "colonel.johnson@military.gov"),
    User("3", "Major Davis", BaseCommander, Some("base2"), "major.davis@military.gov"),
    User("4", "Captain Wilson", LogisticsOfficer, Some("base1"), "captain.wilson@military.gov"),
    User("5", "Lieutenant Martinez", LogisticsOfficer, Some("base2"), "lt.martinez@military.gov")
  ]

  const MockBases: seq<Base> := [
    Base("base1", "Fort Alpha", "Northern Region", Some("2")),
    Base("base2", "Base Bravo", "Southern Region", Some("3")),
    Base("base3", "Camp Charlie", "Eastern Region", None)
  ]

  const MockEquipment: seq<Equipment> := [
    Equipment("eq1", "M4 Carbine", Weapon, "W-001-2023", Available, "base1", None),
    Equipment("eq2", "Humvee", Vehicle, "V-001-2023", Assigned, "base1", Some("unit1")),
    Equipment("eq3", "9mm Ammunition", Ammunition, "A-001-2023", Available, "base2", None)
  ]

  const MockPurchases: seq<Purchase> := [
    Purchase("pur1", Weapon, 50, "base1", "2023-08-15", "PO-2023-001", "Defense Systems Inc.", 75000),
    Purchase("pur2", Vehicle, 5, "base2", "2023-09-01", "PO-2023-002", "Military Motors Corp.", 350000),
    Purchase("pur3", Ammunition, 10000, "base1", "2023-09-15", "PO-2023-003", "Ammo Suppliers Ltd.", 25000)
  ]

  const MockTransfers: seq<Transfer> := [
    Transfer("trans1", Weapon, 20, "base1", "base2", "2023-10-05", "2", Completed),
    Transfer("trans2", Ammunition, 5000, "base2", "base1", "2023-10-12", "3", InTransit),
    Transfer("trans3", Vehicle, 2, "base1", "base3", "2023-10-20", "2", Pending)
  ]

  const MockAssignments: seq<Assignment> := [
    Assignment("asn1", "eq1", "p001", "2023-09-10", None, "Border patrol", Active),
    Assignment("asn2", "eq2", "p002", "2023-09-15", Some("2023-10-15"), "Training exercise", Returned)
  ]

  const MockExpenditures: seq<Expenditure> := [
    Expenditure("exp1", Ammunition, 2000, "base1", "2023-10-01", "2", "Training exercise"),
    Expenditure("exp2", Ammunition, 1500, "base2", "2023-10-10", "3", "Field operation")
  ]

  const MockEquipmentSummary: seq<EquipmentSummary> := [
    EquipmentSummary(Weapon, 100, 50, 0, 20, 30, 0, 100),
    EquipmentSummary(Vehicle, 20, 5, 0, 2, 15, 0, 8),
    EquipmentSummary(Ammunition, 20000, 10000, 5000, 0, 0, 3500, 31500),
    EquipmentSummary(Communication, 50, 20, 5, 10, 40, 0, 25),
    EquipmentSummary(Medical, 200, 100, 0, 50, 100, 25, 125)
  ]
}
