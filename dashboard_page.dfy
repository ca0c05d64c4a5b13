/**
 * The dashboard (src/pages/DashboardPage.tsx): the summary rows it shows for
 * the applied filters, the totals it adds up over them, and the way the net
 * movement is labelled.
 */
module DashboardPage {
  import opened Strings
  import opened Collections
  import opened Types
  import opened MockData

  /** The dashboard's totals; `assignedCount` is the TypeScript `assigned`. */
  datatype Totals = Totals(
    openingBalance: int, closingBalance: int, purchases: int, transferIn: int,
    transferOut: int, netMovement: int, assignedCount: int, expended: int)

  const ZeroTotals := Totals(0, 0, 0, 0, 0, 0, 0, 0)

  /** The filter callback: a set equipment-type filter rejects the rows of
      any other type; nothing else in the filters is looked at. */
  predicate RowKept(filters: DashboardFilters, item: EquipmentSummary)
  {
    if Truthy(filters.equipmentType) && EquipmentTypeName(item.equipmentType) != filters.equipmentType.value
    then false
    else true
  }

  /** `filteredData`: the rows of the filtered type (all rows when no type is
      set), in their original order. */
  function FilteredData(filters: DashboardFilters, data: seq<EquipmentSummary>): (r: seq<EquipmentSummary>)
    ensures forall i :: 0 <= i < |r| ==> r[i] in data
    ensures Truthy(filters.equipmentType) ==>
              forall i :: 0 <= i < |r| ==> EquipmentTypeName(r[i].equipmentType) == filters.equipmentType.value
    ensures forall i :: 0 <= i < |data| &&
              (!Truthy(filters.equipmentType) || ParseEquipmentType(filters.equipmentType.value) == Some(data[i].equipmentType))
              ==> data[i] in r
    ensures Embeds(r, data)
    ensures forall x :: multiset(r)[x] ==
              if !Truthy(filters.equipmentType) || ParseEquipmentType(filters.equipmentType.value) == Some(x.equipmentType)
              then multiset(data)[x] else 0
  {
    FilterCounts(data, item => RowKept(filters, item));
    FilterEmbeds(data, item => RowKept(filters, item));
    Filter(data, item => RowKept(filters, item))
  }

  /** Only the equipment type narrows the rows: the date range and the base
      in the filters have no effect, and with no type every row is shown. */
  lemma OnlyTypeNarrows(filters: DashboardFilters, range: DateRange, baseId: Option<string>,
                        data: seq<EquipmentSummary>)
    ensures FilteredData(filters.(dateRange := range, baseId := baseId), data) == FilteredData(filters, data)
    ensures !Truthy(filters.equipmentType) ==> FilteredData(filters, data) == data
  {
    var g := filters.(dateRange := range, baseId := baseId);
    FilterCongruent(data, item => RowKept(g, item), item => RowKept(filters, item));
    if !Truthy(filters.equipmentType) {
      FilterAllKept(data, item => RowKept(filters, item));
    }
  }

  /** The columns the totals add up; `RowNetMovement` is the per-row
      purchases plus transfers in minus transfers out. */
  datatype Column =
    | OpeningBalance | ClosingBalance | Purchases | TransferIn | TransferOut
    | RowNetMovement | AssignedCount | ExpendedCount

  function Cell(item: EquipmentSummary, column: Column): int
  {
    match column
    case OpeningBalance => item.openingBalance
    case ClosingBalance => item.closingBalance
    case Purchases => item.purchases
    case TransferIn => item.transferIn
    case TransferOut => item.transferOut
    case RowNetMovement => item.purchases + item.transferIn - item.transferOut
    case AssignedCount => item.assignedCount
    case ExpendedCount => item.expended
  }

  /** The sum of one column over the rows. */
  function SumOf(data: seq<EquipmentSummary>, column: Column): int
  {
    if data == [] then 0 else SumOf(data[..|data| - 1], column) + Cell(data[|data| - 1], column)
  }

  /** Summing the per-row net movement gives the total purchases plus the
      total transfers in minus the total transfers out. */
  lemma {:induction false} SumOfNetMovement(data: seq<EquipmentSummary>)
    ensures SumOf(data, RowNetMovement)
            == SumOf(data, Purchases) + SumOf(data, TransferIn) - SumOf(data, TransferOut)
  {
    if data != [] {
      SumOfNetMovement(data[..|data| - 1]);
    }
  }

  /** `totals`: each column summed over the rows, and the net movement summed
      row by row as purchases plus transfers in minus transfers out. The net
      movement is therefore the total purchases plus the total transfers in
      minus the total transfers out; assignments and expenditures do not
      enter it. No rows give all zeros. */
  function TotalsOf(data: seq<EquipmentSummary>): (t: Totals)
    ensures t.netMovement == t.purchases + t.transferIn - t.transferOut
    ensures data == [] ==> t == ZeroTotals
  {
    SumOfNetMovement(data);
    Totals(
      SumOf(data, OpeningBalance), SumOf(data, ClosingBalance), SumOf(data, Purchases),
      SumOf(data, TransferIn), SumOf(data, TransferOut), SumOf(data, RowNetMovement),
      SumOf(data, AssignedCount), SumOf(data, ExpendedCount))
  }

  /** The `reduce` over the filtered rows: one accumulator, updated row by row
      from all zeros. */
  method ComputeTotals(data: seq<EquipmentSummary>) returns (acc: Totals)
    ensures acc == TotalsOf(data)
  {
    acc := ZeroTotals;
    var i := 0;
    while i < |data|
      invariant 0 <= i <= |data|
      invariant acc == TotalsOf(data[..i])
    {
      var curr := data[i];
      assert data[..i + 1][..i] == data[..i];
      acc := acc.(openingBalance := acc.openingBalance + curr.openingBalance);
      acc := acc.(closingBalance := acc.closingBalance + curr.closingBalance);
      acc := acc.(purchases := acc.purchases + curr.purchases);
      acc := acc.(transferIn := acc.transferIn + curr.transferIn);
      acc := acc.(transferOut := acc.transferOut + curr.transferOut);
      acc := acc.(netMovement := acc.netMovement + curr.purchases + curr.transferIn - curr.transferOut);
      acc := acc.(assignedCount := acc.assignedCount + curr.assignedCount);
      acc := acc.(expended := acc.expended + curr.expended);
      i := i + 1;
    }
    assert data[..i] == data;
  }

  /** The Net Movement card's label: a '+' before a non-negative number, the
      plain (so '-'-prefixed) rendering of a negative one. Either way the
      digits read back as the magnitude. */
  function NetMovementLabel(n: int): (r: string)
    ensures |r| > 1
    ensures r[0] == '+' <==> n >= 0
    ensures n < 0 ==> r[0] == '-'
    ensures AllDigits(r[1..]) && ParseNat(r[1..]) == if n >= 0 then n else -n
  {
    var magnitude: nat := if n >= 0 then n else -n;
    ParseNatToString(magnitude);
    NatToStringDigits(magnitude);
    if n >= 0 then "+" + NatToString(magnitude) else IntToString(n)
  }

  /** The dashboard's state: the filters last applied from the filter bar,
      starting with today's date as both ends of the range. */
  class DashboardPageState {
    var filters: DashboardFilters

    constructor (today: string)
      ensures filters == DashboardFilters(DateRange(today, today), None, None)
    {
      filters := DashboardFilters(DateRange(today, today), None, None);
    }

    /** `handleApplyFilters`: adopt the filters the filter bar hands over. */
    method HandleApplyFilters(newFilters: DashboardFilters)
      modifies this`filters
      ensures filters == newFilters
    {
      filters := newFilters;
    }
  }

  /** With the seeded summaries and the ammunition filter, the dashboard
      shows the one ammunition row: closing balance 31500 and net movement
      +15000 (10000 purchased, 5000 transferred in, none out). */
  lemma SeededAmmunitionTotals(today: string)
    ensures var rows := FilteredData(DashboardFilters(DateRange(today, today), None, Some("ammunition")),
                                     MockEquipmentSummary);
            rows == [MockEquipmentSummary[2]]
            && TotalsOf(rows).closingBalance == 31500
            && TotalsOf(rows).netMovement == 15000
  {
    var f := DashboardFilters(DateRange(today, today), None, Some("ammunition"));
    var keep := item => RowKept(f, item);
    var d := MockEquipmentSummary;
    assert d[1..][1..][1..][1..][1..] == [];
    assert Filter(d[1..][1..][1..], keep) == [];
    assert Filter(d[1..][1..], keep) == [d[2]];
    assert Filter(d[1..], keep) == [d[2]];
    var rows := [d[2]];
    assert rows[..0] == [];
    assert SumOf(rows, ClosingBalance) == 31500;
    assert SumOf(rows, RowNetMovement) == 15000;
  }
}
