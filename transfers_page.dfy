/**
 * The transfers list page (src/pages/TransfersPage.tsx): its filter over the
 * transfer history, the creation of a transfer request from the form's data,
 * and the capitalisation used to show equipment types.
 */
module TransfersPage {
  import opened Strings
  import opened Collections
  import opened Types
  import opened RecordIds
  import opened MockData
  import opened TransferForm

  /** The filter inputs, as the raw strings the page stores ("" = unset). */
  datatype TransferFilters = TransferFilters(
    startDate: string, endDate: string, fromBaseId: string, toBaseId: string,
    equipmentType: string, status: string)

  const NoTransferFilters := TransferFilters("", "", "", "", "", "")

  const TransferIdPrefix := "trans"

  /** The id of the user the page records as authorising every request. */
  const CurrentUserId := "1"

  /** The filter callback, check by check as the page writes it. */
  predicate TransferKept(f: TransferFilters, t: Transfer)
  {
    if f.fromBaseId != "" && t.fromBaseId != f.fromBaseId then false
    else if f.toBaseId != "" && t.toBaseId != f.toBaseId then false
    else if f.equipmentType != "" && EquipmentTypeName(t.equipmentType) != f.equipmentType then false
    else if f.status != "" && TransferStatusName(t.status) != f.status then false
    else if f.startDate != "" && LexLess(t.date, f.startDate) then false
    else if f.endDate != "" && LexLess(f.endDate, t.date) then false
    else true
  }

  /** What a set filter means: exact bases, type and status, and a date
      inside the inclusive window the bounds that are set describe. */
  predicate TransferMatches(f: TransferFilters, t: Transfer)
  {
    && (f.fromBaseId != "" ==> t.fromBaseId == f.fromBaseId)
    && (f.toBaseId != "" ==> t.toBaseId == f.toBaseId)
    && (f.equipmentType != "" ==> ParseEquipmentType(f.equipmentType) == Some(t.equipmentType))
    && (f.status != "" ==> TransferStatusName(t.status) == f.status)
    && (f.startDate != "" ==> LexLeq(f.startDate, t.date))
    && (f.endDate != "" ==> LexLeq(t.date, f.endDate))
  }

  /** `filteredTransfers`: exactly the transfers that match every set
      filter, in their original order. */
  function FilteredTransfers(f: TransferFilters, transfers: seq<Transfer>): (r: seq<Transfer>)
    ensures forall i :: 0 <= i < |r| ==> r[i] in transfers && TransferMatches(f, r[i])
    ensures forall i :: 0 <= i < |transfers| && TransferMatches(f, transfers[i]) ==> transfers[i] in r
    ensures Embeds(r, transfers)
    ensures forall x :: multiset(r)[x] == if TransferMatches(f, x) then multiset(transfers)[x] else 0
  {
    FilterCounts(transfers, t => TransferKept(f, t));
    FilterEmbeds(transfers, t => TransferKept(f, t));
    Filter(transfers, t => TransferKept(f, t))
  }

  /** With all six filters unset the page lists every transfer. */
  lemma NoFiltersListsAll(transfers: seq<Transfer>)
    ensures FilteredTransfers(NoTransferFilters, transfers) == transfers
  {
    FilterAllKept(transfers, t => TransferKept(NoTransferFilters, t));
  }

  /** Filtering the filtered list again with the same filters changes nothing. */
  lemma FilteredTransfersIdempotent(f: TransferFilters, transfers: seq<Transfer>)
    ensures FilteredTransfers(f, FilteredTransfers(f, transfers)) == FilteredTransfers(f, transfers)
  {
    FilterIdempotent(transfers, t => TransferKept(f, t));
  }

  /** `String.prototype.toUpperCase` on one character, for ASCII letters. */
  function UpperAscii(c: char): char
  {
    if 'a' <= c <= 'z' then (c as int - 'a' as int + 'A' as int) as char else c
  }

  /** `formatEquipmentType`: the first character upper-cased, the rest
      untouched; the empty string stays empty. */
  function FormatEquipmentType(s: string): (r: string)
    ensures |r| == |s|
    ensures |s| > 0 ==> r[0] == UpperAscii(s[0]) && r[1..] == s[1..]
  {
    if s == [] then [] else [UpperAscii(s[0])] + s[1..]
  }

  /** Formatting is idempotent, and gives each type literal its capitalised
      label. */
  lemma FormatEquipmentTypeLabels(s: string)
    ensures FormatEquipmentType(FormatEquipmentType(s)) == FormatEquipmentType(s)
    ensures FormatEquipmentType(EquipmentTypeName(Weapon)) == "Weapon"
    ensures FormatEquipmentType(EquipmentTypeName(Communication)) == "Communication"
  {
    if s != [] {
      var c := s[0];
      assert UpperAscii(UpperAscii(c)) == UpperAscii(c);
    }
  }

  /** A record's id, as the page reads it. */
  const TransferIdOf: Transfer -> string := (x: Transfer) => x.id

  class TransfersPageState {
    var isFormVisible: bool
    var transfers: seq<Transfer>
    var filters: TransferFilters

    /** The ids are `trans<k>` with k between 1 and the length, all distinct. */
    ghost predicate Valid()
      reads this
    {
      WellNumbered(TransferIdPrefix, Ids(transfers, TransferIdOf))
    }

    constructor ()
      ensures Valid()
      ensures !isFormVisible && transfers == MockTransfers && filters == NoTransferFilters
    {
      isFormVisible := false;
      transfers := MockTransfers;
      filters := NoTransferFilters;
      SequentialIds(TransferIdPrefix, Ids(MockTransfers, TransferIdOf));
    }

    /** `handleFilterChange`: store the value under the named filter. */
    method HandleFilterChange(name: string, value: string)
      modifies this`filters
      ensures name == "startDate" ==> filters == old(filters).(startDate := value)
      ensures name == "endDate" ==> filters == old(filters).(endDate := value)
      ensures name == "fromBaseId" ==> filters == old(filters).(fromBaseId := value)
      ensures name == "toBaseId" ==> filters == old(filters).(toBaseId := value)
      ensures name == "equipmentType" ==> filters == old(filters).(equipmentType := value)
      ensures name == "status" ==> filters == old(filters).(status := value)
      ensures name !in ["startDate", "endDate", "fromBaseId", "toBaseId", "equipmentType", "status"] ==>
                filters == old(filters)
    {
      if name == "startDate" {
        filters := filters.(startDate := value);
      } else if name == "endDate" {
        filters := filters.(endDate := value);
      } else if name == "fromBaseId" {
        filters := filters.(fromBaseId := value);
      } else if name == "toBaseId" {
        filters := filters.(toBaseId := value);
      } else if name == "equipmentType" {
        filters := filters.(equipmentType := value);
      } else if name == "status" {
        filters := filters.(status := value);
      }
    }

    /** `handleCreateTransfer`: prepend a pending transfer authorised by the
        current user, carrying the submitted data and the fresh id
        `trans<old length + 1>`, and close the form. Whatever the submitted
        data says, the status is pending and the authoriser is user "1". */
    method HandleCreateTransfer(data: TransferFormData)
      requires Valid()
      modifies this`transfers, this`isFormVisible
      ensures Valid()
      ensures transfers == [Transfer(NextId(TransferIdPrefix, |old(transfers)|), data.equipmentType,
                                     data.quantity, data.fromBaseId, data.toBaseId, data.date,
                                     CurrentUserId, Pending)] + old(transfers)
      ensures NextId(TransferIdPrefix, |old(transfers)|) !in Ids(old(transfers), TransferIdOf)
      ensures !isFormVisible
    {
      var id := NextId(TransferIdPrefix, |transfers|);
      PrependNextId(TransferIdPrefix, Ids(transfers, TransferIdOf));
      var created := Transfer(id, data.equipmentType, data.quantity, data.fromBaseId,
                              data.toBaseId, data.date, CurrentUserId, Pending);
      assert Ids([created] + transfers, TransferIdOf) == [id] + Ids(transfers, TransferIdOf);
      transfers := [created] + transfers;
      isFormVisible := false;
    }
  }
}
