/**
 * Synthetic record ids. Every list page names the record it creates
 * `<prefix><current length + 1>` ("pur", "trans", "asn", "exp"). Records are
 * only ever prepended, never removed, so these ids stay pairwise distinct.
 */
module RecordIds {
  import opened Strings
  import opened Collections

  /** The id given to a new record when the list already holds `count` records. */
  function NextId(prefix: string, count: nat): string
  {
    prefix + NatToString(count + 1)
  }

  /** The number an id carries after `prefix`, if it has that shape. */
  function IdNumber(prefix: string, id: string): Option<nat>
  {
    if |prefix| < |id| && id[..|prefix|] == prefix && AllDigits(id[|prefix|..])
    then Some(ParseNat(id[|prefix|..]))
    else None
  }

  lemma NextIdNumber(prefix: string, count: nat)
    ensures IdNumber(prefix, NextId(prefix, count)) == Some(count + 1)
  {
    var id := NextId(prefix, count);
    ParseNatToString(count + 1);
    NatToStringDigits(count + 1);
    assert id[..|prefix|] == prefix;
    assert id[|prefix|..] == NatToString(count + 1);
  }

  /** The ids of a list of records, in list order. */
  function Ids<T>(records: seq<T>, id: T -> string): (ids: seq<string>)
    ensures |ids| == |records| && forall i :: 0 <= i < |ids| ==> ids[i] == id(records[i])
  {
    seq(|records|, i requires 0 <= i < |records| => id(records[i]))
  }

  /** Every id is `<prefix><k>` with 1 <= k <= |ids|, and no id repeats. */
  predicate WellNumbered(prefix: string, ids: seq<string>)
  {
    && (forall i :: 0 <= i < |ids| ==>
          IdNumber(prefix, ids[i]).Some? && 1 <= IdNumber(prefix, ids[i]).value <= |ids|)
    && (forall i, j :: 0 <= i < j < |ids| ==> ids[i] != ids[j])
  }

  /** Prepending a record with the next id keeps the ids well numbered; in
      particular the new id collides with none of the existing ones. */
  lemma PrependNextId(prefix: string, ids: seq<string>)
    requires WellNumbered(prefix, ids)
    ensures NextId(prefix, |ids|) !in ids
    ensures WellNumbered(prefix, [NextId(prefix, |ids|)] + ids)
  {
    var id := NextId(prefix, |ids|);
    NextIdNumber(prefix, |ids|);
    forall i | 0 <= i < |ids| ensures ids[i] != id {
      assert IdNumber(prefix, ids[i]).value <= |ids|;
    }
    var ids' := [id] + ids;
    forall i, j | 0 <= i < j < |ids'| ensures ids'[i] != ids'[j] {
      if i > 0 {
        assert ids'[i] == ids[i - 1] && ids'[j] == ids[j - 1];
      } else {
        assert ids'[j] == ids[j - 1];
      }
    }
  }

  /** Ids handed out in ascending order from 1 (as in the seeded lists) are
      well numbered. */
  lemma SequentialIds(prefix: string, ids: seq<string>)
    requires forall i :: 0 <= i < |ids| ==> ids[i] == NextId(prefix, i)
    ensures WellNumbered(prefix, ids)
  {
    forall i | 0 <= i < |ids|
      ensures IdNumber(prefix, ids[i]) == Some(i + 1)
    {
      NextIdNumber(prefix, i);
    }
  }
}
