/**
 * The assignments list page (src/pages/AssignmentsPage.tsx): its filter,
 * whose end bound looks at the return date of returned equipment, the
 * creation of an assignment from the form's data, and the personnel lookup.
 */
module AssignmentsPage {
  import opened Strings
  import opened Collections
  import opened Types
  import opened RecordIds
  import opened MockData
  import opened AssignmentForm

  /** The filter inputs, as the raw strings the page stores ("" = unset). */
  datatype AssignmentFilters = AssignmentFilters(startDate: string, endDate: string, status: string)

  const NoAssignmentFilters := AssignmentFilters("", "", "")

  const AssignmentIdPrefix := "asn"

  /** The filter callback, check by check as the page writes it: the end
      bound is compared with the return date when there is one, and with
      the assignment date otherwise. */
  predicate AssignmentKept(f: AssignmentFilters, a: Assignment)
  {
    if f.status != "" && AssignmentStatusName(a.status) != f.status then false
    else if f.startDate != "" && LexLess(a.dateAssigned, f.startDate) then false
    else if f.endDate != "" then
      if Truthy(a.dateReturned) then !LexLess(f.endDate, a.dateReturned.value)
      else !LexLess(f.endDate, a.dateAssigned)
    else true
  }

  /** The date an assignment's period ends at for the end bound: its return
      date if it has a non-empty one, its assignment date otherwise. */
  function PeriodEnd(a: Assignment): string
  {
    if Truthy(a.dateReturned) then a.dateReturned.value else a.dateAssigned
  }

  /** What a set filter means: an exact status, a period starting no earlier
      than the start bound and ending no later than the end bound. */
  predicate AssignmentMatches(f: AssignmentFilters, a: Assignment)
  {
    && (f.status != "" ==> AssignmentStatusName(a.status) == f.status)
    && (f.startDate != "" ==> LexLeq(f.startDate, a.dateAssigned))
    && (f.endDate != "" ==> LexLeq(PeriodEnd(a), f.endDate))
  }

  /** `filteredAssignments`: exactly the assignments that match every set
      filter, in their original order. */
  function FilteredAssignments(f: AssignmentFilters, assignments: seq<Assignment>): (r: seq<Assignment>)
    ensures forall i :: 0 <= i < |r| ==> r[i] in assignments && AssignmentMatches(f, r[i])
    ensures forall i :: 0 <= i < |assignments| && AssignmentMatches(f, assignments[i]) ==> assignments[i] in r
    ensures Embeds(r, assignments)
    ensures forall x :: multiset(r)[x] == if AssignmentMatches(f, x) then multiset(assignments)[x] else 0
  {
    FilterCounts(assignments, a => AssignmentKept(f, a));
    FilterEmbeds(assignments, a => AssignmentKept(f, a));
    Filter(assignments, a => AssignmentKept(f, a))
  }

  /** With every filter unset the page lists every assignment. */
  lemma NoFiltersListsAll(assignments: seq<Assignment>)
    ensures FilteredAssignments(NoAssignmentFilters, assignments) == assignments
  {
    FilterAllKept(assignments, a => AssignmentKept(NoAssignmentFilters, a));
  }

  /** Filtering the filtered list again with the same filters changes nothing. */
  lemma FilteredAssignmentsIdempotent(f: AssignmentFilters, assignments: seq<Assignment>)
    ensures FilteredAssignments(f, FilteredAssignments(f, assignments)) == FilteredAssignments(f, assignments)
  {
    FilterIdempotent(assignments, a => AssignmentKept(f, a));
  }

  /** An assignment returned after the end bound is not listed, even though
      it was assigned within the window. */
  lemma ReturnedAfterEndExcluded(f: AssignmentFilters, assignments: seq<Assignment>, a: Assignment)
    requires f.endDate != ""
    requires a.dateReturned.Some? && a.dateReturned.value != ""
    requires LexLeq(a.dateAssigned, f.endDate) && LexLess(f.endDate, a.dateReturned.value)
    ensures a !in FilteredAssignments(f, assignments)
  {
  }

  /** With the seeded assignments and the end bound 2023-10-01, the
      assignment returned on 2023-10-15 is left out although it began on
      2023-09-15; the open one from 2023-09-10 stays. */
  lemma SeededEndBound()
    ensures FilteredAssignments(AssignmentFilters("", "2023-10-01", ""), MockAssignments) == [MockAssignments[0]]
  {
    var f := AssignmentFilters("", "2023-10-01", "");
    assert AssignmentMatches(f, MockAssignments[0]);
    ReturnedAfterEndExcluded(f, MockAssignments, MockAssignments[1]);
    var keep := a => AssignmentKept(f, a);
    assert Filter(MockAssignments[1..], keep) == [];
  }

  /** The personnel directory the page uses for display names. */
  const PersonnelMap: map<string, string> := map[
    "p001" := "Sgt. John Wilson",
    "p002" := "Lt. Sarah Johnson",
    "p003" := "Pvt. Michael Davis",
    "p004" := "Cpl. Robert Smith",
    "p005" := "Capt. Jennifer Brown"
  ]

  /** `getPersonnelName`: the directory's name for the five known ids, and
      "Unknown Personnel" for every other id. */
  function PersonnelName(personnelId: string): (r: string)
    ensures personnelId in PersonnelMap ==> r == PersonnelMap[personnelId]
    ensures personnelId !in PersonnelMap ==> r == "Unknown Personnel"
    ensures r != ""
  {
    if personnelId in PersonnelMap && PersonnelMap[personnelId] != "" then PersonnelMap[personnelId]
    else "Unknown Personnel"
  }

  /** The directory knows exactly the ids p001 to p005. */
  lemma PersonnelDirectory(personnelId: string)
    ensures personnelId in PersonnelMap <==> personnelId in ["p001", "p002", "p003", "p004", "p005"]
    ensures PersonnelName("p002") == "Lt. Sarah Johnson"
    ensures PersonnelName("p006") == "Unknown Personnel"
  {
  }

  /** A record's id, as the page reads it. */
  const AssignmentIdOf: Assignment -> string := (x: Assignment) => x.id

  /** The page's state. The equipment it shows is the constant seeded list:
      creating an assignment does not change any equipment's status. */
  class AssignmentsPageState {
    var isFormVisible: bool
    var assignments: seq<Assignment>
    var filters: AssignmentFilters

    /** The ids are `asn<k>` with k between 1 and the length, all distinct. */
    ghost predicate Valid()
      reads this
    {
      WellNumbered(AssignmentIdPrefix, Ids(assignments, AssignmentIdOf))
    }

    constructor ()
      ensures Valid()
      ensures !isFormVisible && assignments == MockAssignments && filters == NoAssignmentFilters
    {
      isFormVisible := false;
      assignments := MockAssignments;
      filters := NoAssignmentFilters;
      SequentialIds(AssignmentIdPrefix, Ids(MockAssignments, AssignmentIdOf));
    }

    /** `handleFilterChange`: store the value under the named filter. */
    method HandleFilterChange(name: string, value: string)
      modifies this`filters
      ensures name == "startDate" ==> filters == old(filters).(startDate := value)
      ensures name == "endDate" ==> filters == old(filters).(endDate := value)
      ensures name == "status" ==> filters == old(filters).(status := value)
      ensures name !in ["startDate", "endDate", "status"] ==> filters == old(filters)
    {
      if name == "startDate" {
        filters := filters.(startDate := value);
      } else if name == "endDate" {
        filters := filters.(endDate := value);
      } else if name == "status" {
        filters := filters.(status := value);
      }
    }

    /** `handleCreateAssignment`: prepend an active, not yet returned
        assignment carrying the submitted data and the fresh id
        `asn<old length + 1>`, and close the form. Nothing else changes. */
    method HandleCreateAssignment(data: AssignmentFormData)
      requires Valid()
      modifies this`assignments, this`isFormVisible
      ensures Valid()
      ensures assignments == [Assignment(NextId(AssignmentIdPrefix, |old(assignments)|), data.equipmentId,
                                         data.personnelId, data.dateAssigned, None, data.purpose,
                                         Active)] + old(assignments)
      ensures NextId(AssignmentIdPrefix, |old(assignments)|) !in Ids(old(assignments), AssignmentIdOf)
      ensures !isFormVisible
    {
      var id := NextId(AssignmentIdPrefix, |assignments|);
      PrependNextId(AssignmentIdPrefix, Ids(assignments, AssignmentIdOf));
      var created := Assignment(id, data.equipmentId, data.personnelId, data.dateAssigned, None,
                                data.purpose, Active);
      assert Ids([created] + assignments, AssignmentIdOf) == [id] + Ids(assignments, AssignmentIdOf);
      assignments := [created] + assignments;
      isFormVisible := false;
    }
  }
}
