/**
 * The dashboard's filter panel (src/components/dashboard/FilterBar.tsx): the
 * filters being edited, which it hands to the dashboard on apply and on
 * reset, and whether the panel is open. The date of today comes from the
 * clock in the source and is a parameter here.
 */
module FilterBar {
  import opened Collections
  import opened Types
  import DashboardPage

  /** The filters on opening and after a reset: today as both ends of the
      range, and no base and no equipment type. */
  function ResetFilters(today: string): DashboardFilters
  {
    DashboardFilters(DateRange(today, today), None, None)
  }

  /** A reset dashboard shows every summary row. */
  lemma ResetShowsAllRows(today: string, data: seq<EquipmentSummary>)
    ensures DashboardPage.FilteredData(ResetFilters(today), data) == data
  {
    DashboardPage.OnlyTypeNarrows(ResetFilters(today), DateRange(today, today), None, data);
  }

  /** `value || undefined`: the empty string is stored as no value. */
  function StoredValue(value: string): (r: Option<string>)
    ensures r.None? <==> value == ""
    ensures r.Some? ==> r.value == value
  {
    if value == "" then None else Some(value)
  }

  /** The filters after one `handleFilterChange(key, value)`. */
  function FilterChanged(filters: DashboardFilters, key: string, value: string): (r: DashboardFilters)
    ensures key == "startDate" ==> r == filters.(dateRange := filters.dateRange.(start := value))
    ensures key == "endDate" ==> r == filters.(dateRange := filters.dateRange.(end := value))
    ensures key == "baseId" ==> r == filters.(baseId := StoredValue(value))
    ensures key == "equipmentType" ==> r == filters.(equipmentType := StoredValue(value))
    ensures key !in ["startDate", "endDate", "baseId", "equipmentType"] ==> r == filters
  {
    if key == "startDate" then filters.(dateRange := filters.dateRange.(start := value))
    else if key == "endDate" then filters.(dateRange := filters.dateRange.(end := value))
    else if key == "baseId" then filters.(baseId := StoredValue(value))
    else if key == "equipmentType" then filters.(equipmentType := StoredValue(value))
    else filters
  }

  /** Of two changes to the same key the later one wins, and changes to two
      different keys can be made in either order. */
  lemma FilterChangesCompose(filters: DashboardFilters, key: string, value: string,
                             key': string, value': string)
    ensures FilterChanged(FilterChanged(filters, key, value), key, value') == FilterChanged(filters, key, value')
    ensures key != key' ==>
              FilterChanged(FilterChanged(filters, key, value), key', value')
              == FilterChanged(FilterChanged(filters, key', value'), key, value)
  {
  }

  /** Clearing the equipment type in the panel makes the dashboard show
      every row again, whatever the dates and the base. */
  lemma ClearedTypeShowsAllRows(filters: DashboardFilters, data: seq<EquipmentSummary>)
    ensures DashboardPage.FilteredData(FilterChanged(filters, "equipmentType", ""), data) == data
  {
    DashboardPage.OnlyTypeNarrows(FilterChanged(filters, "equipmentType", ""), filters.dateRange,
                                  filters.baseId, data);
  }

  class FilterBarState {
    var isOpen: bool
    var filters: DashboardFilters

    constructor (today: string)
      ensures !isOpen && filters == ResetFilters(today)
    {
      isOpen := false;
      filters := ResetFilters(today);
    }

    /** `toggleFilter`: open a closed panel and close an open one, so two
        toggles restore it. */
    method ToggleFilter()
      modifies this`isOpen
      ensures isOpen == !old(isOpen)
    {
      isOpen := !isOpen;
    }

    /** `handleFilterChange`: the dates set one end of the range, the base
        and the type are stored with "" as none, any other key changes
        nothing. */
    method HandleFilterChange(key: string, value: string)
      modifies this`filters
      ensures filters == FilterChanged(old(filters), key, value)
    {
      if key == "startDate" {
        filters := filters.(dateRange := filters.dateRange.(start := value));
      } else if key == "endDate" {
        filters := filters.(dateRange := filters.dateRange.(end := value));
      } else if key == "baseId" {
        filters := filters.(baseId := if value == "" then None else Some(value));
      } else if key == "equipmentType" {
        filters := filters.(equipmentType := if value == "" then None else Some(value));
      }
    }

    /** `handleApplyFilters`: hand the edited filters over unchanged and
        close the panel. */
    method HandleApplyFilters() returns (applied: DashboardFilters)
      modifies this`isOpen
      ensures applied == filters
      ensures !isOpen
    {
      applied := filters;
      isOpen := false;
    }

    /** `handleResetFilters`: reset the edited filters and hand the same reset
        value over; the panel stays as it was. */
    method HandleResetFilters(today: string) returns (applied: DashboardFilters)
      modifies this`filters
      ensures filters == ResetFilters(today) && applied == filters
    {
      var reset := ResetFilters(today);
      filters := reset;
      applied := reset;
    }
  }
}
