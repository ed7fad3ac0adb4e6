/** The dashboard's filter bar (components/dashboard-filters.tsx): the two date
    inputs with their default week, and the four selects. Each handler builds
    a new filter object from the current one. */
module FilterControls {
  import opened Types
  import opened Time
  import opened DashboardUtils

  /** Which end of the date range an input edits. */
  datatype Endpoint = From | To

  /** The filter fields that are edited through a select. */
  datatype SelectField = TypeField | ItemField | VendorField | VehicleField

  /** The moment exactly seven days before `today`. */
  function WeekAgo(today: int): (r: int)
    ensures r < today
    ensures DayIndex(r) == DayIndex(today) - 7
  {
    AddDaysIndex(today, -7);
    AddDays(today, -7)
  }

  /** The range the two date inputs display: each missing end falls back to
      a week ago and to today. */
  function DisplayedRange(filters: DashboardFilters, today: int): (r: DateRange)
    ensures filters.dateRange.Some? ==> r == filters.dateRange.value
    ensures filters.dateRange.None? ==> r.to == today && r.from < r.to && DayIndex(r.to) - DayIndex(r.from) == 7
  {
    DateRange(
      if filters.dateRange.Some? then filters.dateRange.value.from else WeekAgo(today),
      if filters.dateRange.Some? then filters.dateRange.value.to else today)
  }

  /** A date input changed: the edited end takes the new date, the other end
      keeps its value or takes its default, and nothing else changes. */
  function HandleDateChange(filters: DashboardFilters, field: Endpoint, newDate: int, today: int): (r: DashboardFilters)
    ensures r.dateRange.Some?
    ensures r.(dateRange := filters.dateRange) == filters
    ensures field == From ==> r.dateRange.value == DisplayedRange(filters, today).(from := newDate)
    ensures field == To ==> r.dateRange.value == DisplayedRange(filters, today).(to := newDate)
  {
    filters.(dateRange := Some(DateRange(
      if field == From then newDate
      else if filters.dateRange.Some? then filters.dateRange.value.from else WeekAgo(today),
      if field == To then newDate
      else if filters.dateRange.Some? then filters.dateRange.value.to else today)))
  }

  /** After an edit the inputs show the chosen date, whatever day it is later. */
  lemma DateChangeShown(filters: DashboardFilters, field: Endpoint, newDate: int, today: int, later: int)
    ensures var r := DisplayedRange(HandleDateChange(filters, field, newDate, today), later);
      (if field == From then r.from else r.to) == newDate
  {
  }

  /** Editing both ends gives the same filters in either order. */
  lemma DateChangesCommute(filters: DashboardFilters, from: int, to: int, today: int)
    ensures HandleDateChange(HandleDateChange(filters, From, from, today), To, to, today)
         == HandleDateChange(HandleDateChange(filters, To, to, today), From, from, today)
         == filters.(dateRange := Some(DateRange(from, to)))
  {
  }

  /** After a date edit a record is kept exactly when the other filters keep it
      and its calendar day lies between the days of the two ends. */
  lemma DateChangeKeepsDays(filters: DashboardFilters, field: Endpoint, newDate: int, today: int, x: WeightRecord)
    ensures var r := HandleDateChange(filters, field, newDate, today);
      Passes(x, r) <==>
        && Passes(x, filters.(dateRange := None))
        && DayIndex(r.dateRange.value.from) <= DayIndex(x.timestamp) <= DayIndex(r.dateRange.value.to)
  {
    var r := HandleDateChange(filters, field, newDate, today);
    DayWindow(x.timestamp, r.dateRange.value.from, r.dateRange.value.to);
  }

  /** The value of a select-backed filter field. */
  function SelectValue(filters: DashboardFilters, field: SelectField): Option<string> {
    match field
    case TypeField => filters.recordType
    case ItemField => filters.itemId
    case VendorField => filters.vendorId
    case VehicleField => filters.vehicleId
  }

  /** What a select shows: the field's value when it is set, the empty string
      (standing for "All") otherwise. */
  function DisplayedSelect(filters: DashboardFilters, field: SelectField): (s: string)
    ensures s == "" <==> !IsActive(SelectValue(filters, field))
    ensures IsActive(SelectValue(filters, field)) ==> s == SelectValue(filters, field).value
  {
    SelectValue(filters, field).GetOr("")
  }

  /** A select changed: the empty choice removes the field, any other choice
      sets it; every other field is kept. */
  function HandleSelectChange(filters: DashboardFilters, field: SelectField, value: string): (r: DashboardFilters)
    ensures SelectValue(r, field) == (if value == "" then None else Some(value))
    ensures forall g :: g != field ==> SelectValue(r, g) == SelectValue(filters, g)
    ensures r.dateRange == filters.dateRange
  {
    var v := if value == "" then None else Some(value);
    match field
    case TypeField => filters.(recordType := v)
    case ItemField => filters.(itemId := v)
    case VendorField => filters.(vendorId := v)
    case VehicleField => filters.(vehicleId := v)
  }

  /** The select then shows the choice. */
  lemma SelectShown(filters: DashboardFilters, field: SelectField, value: string)
    ensures DisplayedSelect(HandleSelectChange(filters, field, value), field) == value
  {
  }

  /** Choosing again what the select showed before restores the filters. */
  lemma SelectUndo(filters: DashboardFilters, field: SelectField, value: string)
    requires SelectValue(filters, field) != Some("")
    ensures HandleSelectChange(HandleSelectChange(filters, field, value), field, DisplayedSelect(filters, field)) == filters
  {
    match field
    case TypeField =>
    case ItemField =>
    case VendorField =>
    case VehicleField =>
  }

  /** The value of a record that a select-backed filter compares with. */
  function RecordField(x: WeightRecord, field: SelectField): string {
    match field
    case TypeField => TypeName(x.recordType)
    case ItemField => x.item.id
    case VendorField => x.vendor.id
    case VehicleField => x.vehicle.id
  }

  /** Choosing `value` keeps, of the records the other filters keep, exactly
      those whose field equals `value`; the empty choice keeps all of them. */
  lemma SelectRestricts(filters: DashboardFilters, field: SelectField, value: string, x: WeightRecord)
    ensures Passes(x, HandleSelectChange(filters, field, value)) <==>
      Passes(x, HandleSelectChange(filters, field, "")) && (value == "" || RecordField(x, field) == value)
  {
    match field
    case TypeField =>
    case ItemField =>
    case VendorField =>
    case VehicleField =>
  }

  /** The records listed after choosing `value` are a subsequence of those
      listed with the select on "All", and are obtained by filtering that list. */
  lemma SelectNarrowsResults(records: seq<WeightRecord>, filters: DashboardFilters, field: SelectField, value: string)
    ensures var all := FilterWeightRecords(records, HandleSelectChange(filters, field, ""));
      var chosen := FilterWeightRecords(records, HandleSelectChange(filters, field, value));
      chosen == FilterWeightRecords(all, HandleSelectChange(filters, field, value)) && IsSubsequence(chosen, all)
  {
    var cleared := HandleSelectChange(filters, field, "");
    var selected := HandleSelectChange(filters, field, value);
    forall x ensures Passes(x, selected) ==> Passes(x, cleared) {
      SelectRestricts(filters, field, value, x);
    }
    FilterNarrowing(records, selected, cleared);
    FilterIsSubsequence(FilterWeightRecords(records, cleared), selected);
  }
}
