/**
 * The expenditures list page (src/pages/ExpendituresPage.tsx): its filter
 * over the expenditure history and the recording of an expenditure from the
 * form's data.
 */
module ExpendituresPage {
  import opened Strings
  import opened Collections
  import opened Types
  import opened RecordIds
  import opened MockData
  import opened ExpenditureForm

  /** The filter inputs, as the raw strings the page stores ("" = unset). */
  datatype ExpenditureFilters = ExpenditureFilters(
    startDate: string, endDate: string, baseId: string, equipmentType: string)

  const NoExpenditureFilters := ExpenditureFilters("", "", "", "")

  const ExpenditureIdPrefix := "exp"

  /** The id of the user the page records as authorising every expenditure. */
  const CurrentUserId := "1"

  /** The filter callback, check by check as the page writes it. */
  predicate ExpenditureKept(f: ExpenditureFilters, x: Expenditure)
  {
    if f.baseId != "" && x.baseId != f.baseId then false
    else if f.equipmentType != "" && EquipmentTypeName(x.equipmentType) != f.equipmentType then false
    else if f.startDate != "" && LexLess(x.date, f.startDate) then false
    else if f.endDate != "" && LexLess(f.endDate, x.date) then false
    else true
  }

  /** What a set filter means: an exact base and type, and a date inside the
      inclusive window the bounds that are set describe. */
  predicate ExpenditureMatches(f: ExpenditureFilters, x: Expenditure)
  {
    && (f.baseId != "" ==> x.baseId == f.baseId)
    && (f.equipmentType != "" ==> ParseEquipmentType(f.equipmentType) == Some(x.equipmentType))
    && (f.startDate != "" ==> LexLeq(f.startDate, x.date))
    && (f.endDate != "" ==> LexLeq(x.date, f.endDate))
  }

  /** `filteredExpenditures`: exactly the expenditures that match every set
      filter, in their original order. */
  function FilteredExpenditures(f: ExpenditureFilters, expenditures: seq<Expenditure>): (r: seq<Expenditure>)
    ensures forall i :: 0 <= i < |r| ==> r[i] in expenditures && ExpenditureMatches(f, r[i])
    ensures forall i :: 0 <= i < |expenditures| && ExpenditureMatches(f, expenditures[i]) ==> expenditures[i] in r
    ensures Embeds(r, expenditures)
    ensures forall x :: multiset(r)[x] == if ExpenditureMatches(f, x) then multiset(expenditures)[x] else 0
  {
    FilterCounts(expenditures, x => ExpenditureKept(f, x));
    FilterEmbeds(expenditures, x => ExpenditureKept(f, x));
    Filter(expenditures, x => ExpenditureKept(f, x))
  }

  /** With every filter unset the page lists every expenditure. */
  lemma NoFiltersListsAll(expenditures: seq<Expenditure>)
    ensures FilteredExpenditures(NoExpenditureFilters, expenditures) == expenditures
  {
    FilterAllKept(expenditures, x => ExpenditureKept(NoExpenditureFilters, x));
  }

  /** Filtering the filtered list again with the same filters changes nothing. */
  lemma FilteredExpendituresIdempotent(f: ExpenditureFilters, expenditures: seq<Expenditure>)
    ensures FilteredExpenditures(f, FilteredExpenditures(f, expenditures)) == FilteredExpenditures(f, expenditures)
  {
    FilterIdempotent(expenditures, x => ExpenditureKept(f, x));
  }

  /** A record's id, as the page reads it. */
  const ExpenditureIdOf: Expenditure -> string := (x: Expenditure) => x.id

  class ExpendituresPageState {
    var isFormVisible: bool
    var expenditures: seq<Expenditure>
    var filters: ExpenditureFilters

    /** The ids are `exp<k>` with k between 1 and the length, all distinct. */
    ghost predicate Valid()
      reads this
    {
      WellNumbered(ExpenditureIdPrefix, Ids(expenditures, ExpenditureIdOf))
    }

    constructor ()
      ensures Valid()
      ensures !isFormVisible && expenditures == MockExpenditures && filters == NoExpenditureFilters
    {
      isFormVisible := false;
      expenditures := MockExpenditures;
      filters := NoExpenditureFilters;
      SequentialIds(ExpenditureIdPrefix, Ids(MockExpenditures, ExpenditureIdOf));
    }

    /** `handleFilterChange`: store the value under the named filter. */
    method HandleFilterChange(name: string, value: string)
      modifies this`filters
      ensures name == "startDate" ==> filters == old(filters).(startDate := value)
      ensures name == "endDate" ==> filters == old(filters).(endDate := value)
      ensures name == "baseId" ==> filters == old(filters).(baseId := value)
      ensures name == "equipmentType" ==> filters == old(filters).(equipmentType := value)
      ensures name !in ["startDate", "endDate", "baseId", "equipmentType"] ==> filters == old(filters)
    {
      if name == "startDate" {
        filters := filters.(startDate := value);
      } else if name == "endDate" {
        filters := filters.(endDate := value);
      } else if name == "baseId" {
        filters := filters.(baseId := value);
      } else if name == "equipmentType" {
        filters := filters.(equipmentType := value);
      }
    }

    /** `handleCreateExpenditure`: prepend an expenditure authorised by the
        current user, carrying the submitted data and the fresh id
        `exp<old length + 1>`, and close the form. The list grows by exactly
        one and the older records keep their order. */
    method HandleCreateExpenditure(data: ExpenditureFormData)
      requires Valid()
      modifies this`expenditures, this`isFormVisible
      ensures Valid()
      ensures expenditures == [Expenditure(NextId(ExpenditureIdPrefix, |old(expenditures)|), data.equipmentType,
                                           data.quantity, data.baseId, data.date, CurrentUserId,
                                           data.purpose)] + old(expenditures)
      ensures NextId(ExpenditureIdPrefix, |old(expenditures)|) !in Ids(old(expenditures), ExpenditureIdOf)
      ensures !isFormVisible
    {
      var id := NextId(ExpenditureIdPrefix, |expenditures|);
      PrependNextId(ExpenditureIdPrefix, Ids(expenditures, ExpenditureIdOf));
      var created := Expenditure(id, data.equipmentType, data.quantity, data.baseId, data.date,
                                 CurrentUserId, data.purpose);
      assert Ids([created] + expenditures, ExpenditureIdOf) == [id] + Ids(expenditures, ExpenditureIdOf);
      expenditures := [created] + expenditures;
      isFormVisible := false;
    }
  }
}
