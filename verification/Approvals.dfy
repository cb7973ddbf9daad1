/**
  The Assistant's approval requests: one record per request, one namespace per thread, and a
  single transition out of `Pending`, made by compare-and-set.
*/
module Approvals {
  import opened Text
  import opened SystemStore

  datatype Status = Pending | Running | Denied | Expired | Executed | Failed

  /** Arguments of a tool call, as their JSON text. */
  type Json = string

  datatype TargetRef = TargetRef(kind: string, id: string)

  datatype Approval = Approval(
    id: string,
    threadId: string,
    principalId: string,
    tool: string,
    arguments: Json,
    caption: string,
    target: TargetRef,
    irreversible: bool,
    fingerprint: Option<string>,
    status: Status,
    createdAt: int,
    expiresAt: int,
    decidedAt: Option<int>,
    outcome: Option<string>)

  const APPROVAL_TTL_MS := 600_000
  const MAX_PENDING_APPROVALS_PER_THREAD := 5

  const APPROVALS_PREFIX := "assistant-approvals:"

  function NamespaceOf(threadId: string): (r: string)
    ensures Trim(r) != ""
  {
    TrimKeeps(APPROVALS_PREFIX + threadId, 0);
    APPROVALS_PREFIX + threadId
  }

  /** Where a request of a thread is stored; refused only for a blank id. */
  function Slot(threadId: string, id: string): (r: Outcome<string>)
    ensures r.Ok? <==> Trim(id) != ""
  {
    Address(NamespaceOf(threadId), id)
  }

  /** Everything about a request except how it was decided. */
  ghost predicate SameRequest(a: Approval, b: Approval) {
    b == a.(status := b.status, decidedAt := b.decidedAt, outcome := b.outcome)
  }

  /** The only moves of a stored status. */
  predicate Moves(before: Status, after: Status) {
    match before
    case Pending => after in {Running, Denied, Expired}
    case Running => after in {Executed, Failed}
    case _ => false
  }

  function Decided(current: Approval, status: Status, outcome: string, now: int): Approval {
    current.(status := status, decidedAt := Some(now),
             outcome := if outcome == "" then current.outcome else Some(outcome))
  }

  function Finished(current: Approval, status: Status, outcome: string): Approval {
    current.(status := status, outcome := Some(outcome))
  }

  /** An id of a request, as generated: never blank, nothing to trim, no NUL. */
  predicate IsApprovalId(id: string) {
    id != "" && Trim(id) == id && '\0' !in id
  }

  /** Requests with different ids never share a record, whatever their threads are called. */
  lemma SlotsDiffer(t1: string, id1: string, t2: string, id2: string)
    requires IsApprovalId(id1) && IsApprovalId(id2)
    requires Slot(t1, id1) == Slot(t2, id2)
    ensures id1 == id2
  {
    RecordIdKeyInjective(Trim(NamespaceOf(t1)), id1, Trim(NamespaceOf(t2)), id2);
  }

  datatype Creation = Created | IdTaken | BlankId

  class ApprovalStore {
    const store: MemorySystemStore<Approval>

    constructor (store: MemorySystemStore<Approval>)
      ensures this.store == store
    {
      this.store := store;
    }

    method Create(approval: Approval, now: int) returns (r: Creation)
      requires store.Valid()
      modifies store
      ensures store.Valid()
      ensures match Slot(approval.threadId, approval.id)
              case Rejected(_) => r == BlankId && store.records == old(store.records)
              case Ok(slot) =>
                if slot in old(store.records) then r == IdTaken && store.records == old(store.records)
                else r == Created && slot in store.records && store.records[slot].value == approval
                     && store.records == old(store.records)[slot := store.records[slot]]
    {
      var written := store.SetIfAbsent(NamespaceOf(approval.threadId), approval.id, approval, now);
      if written.Rejected? {
        return BlankId;
      }
      r := if written.value.0 then Created else IdTaken;
    }

    method Get(threadId: string, id: string) returns (r: Outcome<Option<Approval>>)
      ensures match Slot(threadId, id)
              case Rejected(e) => r == Rejected(e)
              case Ok(slot) => r == Ok(if slot in store.records then Some(store.records[slot].value) else None)
    {
      var found := store.Get(NamespaceOf(threadId), id);
      if found.Rejected? {
        return Rejected(found.error);
      }
      r := Ok(if found.value.None? then None else Some(found.value.value.value));
    }

    /** Moves a pending request to another status; without interference nothing else can win. */
    method Decide(threadId: string, id: string, status: Status, outcome: string, now: int)
      returns (r: Outcome<Option<Approval>>)
      requires store.Valid()
      requires status != Pending
      modifies store
      ensures store.Valid()
      ensures match Slot(threadId, id)
              case Rejected(e) => r == Rejected(e) && store.records == old(store.records)
              case Ok(slot) =>
                if slot in old(store.records) && old(store.records)[slot].value.status == Pending then
                  var decided := Decided(old(store.records)[slot].value, status, outcome, now);
                  && r == Ok(Some(decided))
                  && slot in store.records && store.records[slot].value == decided
                  && store.records[slot].updatedAt > old(store.records)[slot].updatedAt
                  && store.records == old(store.records)[slot := store.records[slot]]
                else r == Ok(None) && store.records == old(store.records)
    {
      var found := store.Get(NamespaceOf(threadId), id);
      if found.Rejected? {
        return Rejected(found.error);
      }
      if found.value.None? || found.value.value.value.status != Pending {
        return Ok(None);
      }
      var record := found.value.value;
      var decided := Decided(record.value, status, outcome, now);
      var written := store.CompareAndSet(NamespaceOf(threadId), id, record.updatedAt, decided,
                                         Some(record.value), now);
      r := Ok(if written.Ok? && written.value.Some? then Some(decided) else None);
    }

    /** Records how a running change ended. */
    method Finish(threadId: string, id: string, status: Status, outcome: string, now: int)
      returns (r: Outcome<Option<Approval>>)
      requires store.Valid()
      requires status in {Executed, Failed}
      modifies store
      ensures store.Valid()
      ensures match Slot(threadId, id)
              case Rejected(e) => r == Rejected(e) && store.records == old(store.records)
              case Ok(slot) =>
                if slot in old(store.records) && old(store.records)[slot].value.status == Running then
                  var finished := Finished(old(store.records)[slot].value, status, outcome);
                  && r == Ok(Some(finished))
                  && slot in store.records && store.records[slot].value == finished
                  && store.records[slot].updatedAt > old(store.records)[slot].updatedAt
                  && store.records == old(store.records)[slot := store.records[slot]]
                else r == Ok(None) && store.records == old(store.records)
    {
      var found := store.Get(NamespaceOf(threadId), id);
      if found.Rejected? {
        return Rejected(found.error);
      }
      if found.value.None? || found.value.value.value.status != Running {
        return Ok(None);
      }
      var record := found.value.value;
      var finished := Finished(record.value, status, outcome);
      var written := store.CompareAndSet(NamespaceOf(threadId), id, record.updatedAt, finished,
                                         Some(record.value), now);
      r := Ok(if written.Ok? && written.value.Some? then Some(finished) else None);
    }

    /** Removes exactly the requests of one thread, and says how many there were. */
    method DeleteForThread(threadId: string) returns (removed: nat)
      requires store.Valid()
      modifies store
      ensures store.Valid()
      ensures var gone := InNamespace(old(store.records), Trim(NamespaceOf(threadId)));
              store.records == old(store.records) - gone && removed == |gone|
    {
      removed := 0;
      var name := NamespaceOf(threadId);
      hide Trim, NamespaceOf, InPlace, Lists, Address;
      var listed := store.List(name);
      var rows := listed.value;
      ghost var before := store.records;
      for i := 0 to |rows|
        invariant store.Valid()
        invariant store.records == before - Addresses(rows[..i])
        invariant removed == |Addresses(rows[..i])|
      {
        DeletesOneMore(before, rows, i, name, InNamespace(before, Trim(name)));
        var gone := store.Delete(name, rows[i].key);
        removed := removed + if gone.Ok? && gone.value then 1 else 0;
      }
      assert rows[..|rows|] == rows;
      AddressesOfListed(rows, before, InNamespace(before, Trim(name)));
    }
  }

  function Addresses(rows: seq<Record<Approval>>): set<string> {
    set row | row in rows :: At(row)
  }

  lemma DeletesOneMore(records: Records<Approval>, rows: seq<Record<Approval>>, i: nat, name: string, ids: set<string>)
    requires i < |rows| && InPlace(records) && Lists(rows, records, ids) && ids == InNamespace(records, Trim(name))
    ensures var left := records - Addresses(rows[..i]);
            && Address(name, rows[i].key) == Ok(At(rows[i])) && At(rows[i]) in left
            && Apply(Delete(name, rows[i].key), left) == records - Addresses(rows[..i + 1])
            && |Addresses(rows[..i + 1])| == |Addresses(rows[..i])| + 1
  {
    var row := rows[i];
    assert Named(records[At(row)]);
    assert Trim(row.namespace) == row.namespace == Trim(name) by {
      TrimIdempotent(name);
    }
    assert rows[..i + 1] == rows[..i] + [row];
    assert Addresses(rows[..i + 1]) == Addresses(rows[..i]) + {At(row)};
    forall other | other in rows[..i]
      ensures At(other) != At(row)
    {
      var j :| 0 <= j < i && rows[j] == other;
    }
    assert At(row) !in Addresses(rows[..i]);
  }

  lemma AddressesOfListed(rows: seq<Record<Approval>>, records: Records<Approval>, ids: set<string>)
    requires Lists(rows, records, ids)
    ensures Addresses(rows) == ids
  {
    forall id | id in ids
      ensures id in Addresses(rows)
    {
      var i :| 0 <= i < |rows| && At(rows[i]) == id;
      assert rows[i] in rows;
    }
  }
}
