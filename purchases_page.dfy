/**
 * The purchases list page (src/pages/PurchasesPage.tsx): its filter over the
 * purchase history, the creation of a purchase from the form's data, and
 * the base-name lookup used in the table.
 */
module PurchasesPage {
  import opened Strings
  import opened Collections
  import opened Types
  import opened RecordIds
  import opened MockData
  import opened PurchaseForm

  /** The filter inputs, as the raw strings the page stores ("" = unset). */
  datatype PurchaseFilters = PurchaseFilters(
    startDate: string, endDate: string, baseId: string, equipmentType: string)

  const NoPurchaseFilters := PurchaseFilters("", "", "", "")

  const PurchaseIdPrefix := "pur"

  /** The filter callback, check by check as the page writes it: any set
      filter that the purchase fails rejects it. */
  predicate PurchaseKept(f: PurchaseFilters, p: Purchase)
  {
    if f.baseId != "" && p.baseId != f.baseId then false
    else if f.equipmentType != "" && EquipmentTypeName(p.equipmentType) != f.equipmentType then false
    else if f.startDate != "" && LexLess(p.date, f.startDate) then false
    else if f.endDate != "" && LexLess(f.endDate, p.date) then false
    else true
  }

  /** What a set filter means: an exact base and type, and a date inside the
      inclusive window the bounds that are set describe. */
  predicate PurchaseMatches(f: PurchaseFilters, p: Purchase)
  {
    && (f.baseId != "" ==> p.baseId == f.baseId)
    && (f.equipmentType != "" ==> ParseEquipmentType(f.equipmentType) == Some(p.equipmentType))
    && (f.startDate != "" ==> LexLeq(f.startDate, p.date))
    && (f.endDate != "" ==> LexLeq(p.date, f.endDate))
  }

  /** `filteredPurchases`: exactly the purchases that match every set filter,
      in their original order. */
  function FilteredPurchases(f: PurchaseFilters, purchases: seq<Purchase>): (r: seq<Purchase>)
    ensures forall i :: 0 <= i < |r| ==> r[i] in purchases && PurchaseMatches(f, r[i])
    ensures forall i :: 0 <= i < |purchases| && PurchaseMatches(f, purchases[i]) ==> purchases[i] in r
    ensures Embeds(r, purchases)
    ensures forall x :: multiset(r)[x] == if PurchaseMatches(f, x) then multiset(purchases)[x] else 0
  {
    FilterCounts(purchases, p => PurchaseKept(f, p));
    FilterEmbeds(purchases, p => PurchaseKept(f, p));
    Filter(purchases, p => PurchaseKept(f, p))
  }

  /** With every filter unset the page lists every purchase. */
  lemma NoFiltersListsAll(purchases: seq<Purchase>)
    ensures FilteredPurchases(NoPurchaseFilters, purchases) == purchases
  {
    FilterAllKept(purchases, p => PurchaseKept(NoPurchaseFilters, p));
  }

  /** Filtering the filtered list again with the same filters changes nothing. */
  lemma FilteredPurchasesIdempotent(f: PurchaseFilters, purchases: seq<Purchase>)
    ensures FilteredPurchases(f, FilteredPurchases(f, purchases)) == FilteredPurchases(f, purchases)
  {
    FilterIdempotent(purchases, p => PurchaseKept(f, p));
  }

  /** `getBaseName`: the name of the first base with that id, or
      "Unknown Base" when there is none. */
  function BaseName(bases: seq<Base>, baseId: string): (r: string)
    ensures (forall i :: 0 <= i < |bases| ==> bases[i].id != baseId) ==> r == "Unknown Base"
    ensures forall i ::
              (0 <= i < |bases| && bases[i].id == baseId
               && (forall j :: 0 <= j < i ==> bases[j].id != baseId)) ==> r == bases[i].name
  {
    match Find(bases, (b: Base) => b.id == baseId)
    case Some(b) => b.name
    case None => "Unknown Base"
  }

  /** The seeded bases resolve by id; any other id is unknown. */
  lemma SeededBaseNames(baseId: string)
    ensures BaseName(MockBases, "base1") == "Fort Alpha"
    ensures BaseName(MockBases, "base2") == "Base Bravo"
    ensures BaseName(MockBases, "base3") == "Camp Charlie"
    ensures (baseId != "base1" && baseId != "base2" && baseId != "base3") ==>
              BaseName(MockBases, baseId) == "Unknown Base"
  {
    KnownBaseName(1);
    KnownBaseName(2);
  }

  lemma KnownBaseName(k: nat)
    requires k < 3
    ensures BaseName(MockBases, MockBases[k].id) == MockBases[k].name
  {
    var b := MockBases;
    assert forall i, j :: 0 <= i < j < 3 ==> b[i].id[4] != b[j].id[4];
  }

  /** A record's id, as the page reads it. */
  const PurchaseIdOf: Purchase -> string := (x: Purchase) => x.id

  class PurchasesPageState {
    var isFormVisible: bool
    var purchases: seq<Purchase>
    var filters: PurchaseFilters

    /** The ids are `pur<k>` with k between 1 and the length, all distinct. */
    ghost predicate Valid()
      reads this
    {
      WellNumbered(PurchaseIdPrefix, Ids(purchases, PurchaseIdOf))
    }

    constructor ()
      ensures Valid()
      ensures !isFormVisible && purchases == MockPurchases && filters == NoPurchaseFilters
    {
      isFormVisible := false;
      purchases := MockPurchases;
      filters := NoPurchaseFilters;
      SequentialIds(PurchaseIdPrefix, Ids(MockPurchases, PurchaseIdOf));
    }

    /** `handleFilterChange`: store the value under the named filter. */
    method HandleFilterChange(name: string, value: string)
      modifies this`filters
      ensures name == "startDate" ==> filters == old(filters).(startDate := value)
      ensures name == "endDate" ==> filters == old(filters).(endDate := value)
      ensures name == "baseId" ==> filters == old(filters).(baseId := value)
      ensures name == "equipmentType" ==> filters == old(filters).(equipmentType := value)
      ensures name !in ["startDate", "endDate", "baseId", "equipmentType"] ==> filters == old(filters)
    {
      if name == "startDate" {
        filters := filters.(startDate := value);
      } else if name == "endDate" {
        filters := filters.(endDate := value);
      } else if name == "baseId" {
        filters := filters.(baseId := value);
      } else if name == "equipmentType" {
        filters := filters.(equipmentType := value);
      }
    }

    /** `handleCreatePurchase`: prepend a purchase carrying the submitted
        data and the id `pur<old length + 1>`, which no existing purchase
        has, and close the form. */
    method HandleCreatePurchase(data: PurchaseFormData)
      requires Valid()
      modifies this`purchases, this`isFormVisible
      ensures Valid()
      ensures purchases == [Purchase(NextId(PurchaseIdPrefix, |old(purchases)|), data.equipmentType,
                                     data.quantity, data.baseId, data.date, data.purchaseOrder,
                                     data.supplier, data.cost)] + old(purchases)
      ensures NextId(PurchaseIdPrefix, |old(purchases)|) !in Ids(old(purchases), PurchaseIdOf)
      ensures !isFormVisible
    {
      var id := NextId(PurchaseIdPrefix, |purchases|);
      PrependNextId(PurchaseIdPrefix, Ids(purchases, PurchaseIdOf));
      var created := Purchase(id, data.equipmentType, data.quantity, data.baseId, data.date,
                              data.purchaseOrder, data.supplier, data.cost);
      assert Ids([created] + purchases, PurchaseIdOf) == [id] + Ids(purchases, PurchaseIdOf);
      purchases := [created] + purchases;
      isFormVisible := false;
    }
  }
}
