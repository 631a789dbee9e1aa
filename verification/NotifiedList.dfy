/** The notified-transporters list of a booking row: merged on each radius step and fallback, appended to on a
    re-broadcast, and cut at 200 each time. */
module NotifiedList {
  import opened Rows
  import opened Sequences

  const CAP: nat := 200

  function Merge(list: seq<Id>, added: seq<Id>): seq<Id> {
    Take(DedupAfter([], list + added), CAP)
  }

  function Append(list: seq<Id>, id: Id): seq<Id> {
    if id in list then list else Take(list + [id], CAP)
  }

  method MergeNotified(list: seq<Id>, added: seq<Id>) returns (unique: seq<Id>)
    ensures unique == Merge(list, added)
  {
    var all := list + added;
    unique := [];
    for i := 0 to |all|
      invariant DedupAfter([], all) == DedupAfter(unique, all[i..])
    {
      if all[i] !in unique {
        unique := unique + [all[i]];
      }
    }
    if |unique| > CAP {
      unique := unique[..CAP];
    }
  }

  predicate IsRecord(q: seq<Id>) {
    NoDuplicates(q) && |q| <= CAP
  }

  /** A merge keeps the old list as a prefix, adds only what was offered, and leaves something out only at the cap. */
  lemma MergeGrows(list: seq<Id>, added: seq<Id>)
    requires IsRecord(list)
    ensures var merged := Merge(list, added);
            && IsRecord(merged) && list <= merged
            && (forall id | id in merged :: id in list || id in added)
            && ((forall id | id in added :: id in merged) || |merged| == CAP)
  {
    assert [] + list == list;
    DedupOfDistinct([], list, added);
    DedupExtends(list, added);
    DedupExtends([], list + added);
  }

  datatype Write = MergeAll(added: seq<Id>) | AppendOne(id: Id)

  function ApplyWrite(q: seq<Id>, w: Write): seq<Id> {
    match w
    case MergeAll(added) => Merge(q, added)
    case AppendOne(id) => Append(q, id)
  }

  function ApplyWrites(q: seq<Id>, writes: seq<Write>): seq<Id>
    decreases |writes|
  {
    if writes == [] then q else ApplyWrites(ApplyWrite(q, writes[0]), writes[1..])
  }

  /** Over any sequence of merges and appends a recorded transporter is never dropped and never moves. */
  lemma {:induction false} RecordedStays(q: seq<Id>, writes: seq<Write>)
    requires IsRecord(q)
    ensures IsRecord(ApplyWrites(q, writes)) && q <= ApplyWrites(q, writes)
    decreases |writes|
  {
    if writes != [] {
      if writes[0].MergeAll? {
        MergeGrows(q, writes[0].added);
      }
      RecordedStays(ApplyWrite(q, writes[0]), writes[1..]);
    }
  }

  /** Any merge keeps the list as a prefix if and only if the list is a record: a repetition, or an entry past the cap,
      is lost or moved. */
  lemma PrefixKeptIff(list: seq<Id>, added: seq<Id>)
    ensures list <= Merge(list, added) <==> IsRecord(list)
  {
    if IsRecord(list) {
      MergeGrows(list, added);
    } else if list <= Merge(list, added) {
      DedupExtends([], list + added);
    }
  }
}
