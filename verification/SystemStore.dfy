/**
  The Platform System Store as kept in memory: records addressed by namespace and key, each
  stamped with a time that only moves forward while the record exists.

  Times are the milliseconds that the ISO strings denote. What a call writes is a function of
  the records it finds (`Apply`), so that runs of calls by any number of callers can be
  reasoned about; the class keeps the records in a field and is proved to do exactly that.
*/
module SystemStore {
  import opened Text

  datatype Error = EmptyNamespace | EmptyKey

  datatype Outcome<+T> = Ok(value: T) | Rejected(error: Error)

  datatype Record<+V> = Record(namespace: string, key: string, value: V, updatedAt: int)

  type Records<+V> = map<string, Record<V>>

  /** Names are trimmed, and refused when nothing is left. */
  function Address(namespace: string, key: string): (r: Outcome<string>)
    ensures r.Ok? <==> Trim(namespace) != "" && Trim(key) != ""
  {
    if Trim(namespace) == "" then Rejected(EmptyNamespace)
    else if Trim(key) == "" then Rejected(EmptyKey)
    else Ok(RecordId(Trim(namespace), Trim(key)))
  }

  function RecordId(namespace: string, key: string): string {
    namespace + ['\0'] + key
  }

  /** Two addresses share a record only if they are the same address, when namespaces hold no NUL. */
  lemma RecordIdInjective(n1: string, k1: string, n2: string, k2: string)
    requires '\0' !in n1 && '\0' !in n2
    requires RecordId(n1, k1) == RecordId(n2, k2)
    ensures n1 == n2 && k1 == k2
  {
    var id := RecordId(n1, k1);
    assert id[|n1|] == '\0' && id[|n2|] == '\0';
    assert forall i | 0 <= i < |n1| :: id[i] == n1[i];
    assert forall i | 0 <= i < |n2| :: id[i] == n2[i];
    assert n1 == id[..|n1|] && n2 == id[..|n2|];
    assert k1 == id[|n1| + 1..] && k2 == id[|n2| + 1..];
  }

  /** The same, when it is the keys that hold no NUL. */
  lemma RecordIdKeyInjective(n1: string, k1: string, n2: string, k2: string)
    requires '\0' !in k1 && '\0' !in k2
    requires RecordId(n1, k1) == RecordId(n2, k2)
    ensures n1 == n2 && k1 == k2
  {
    var id := RecordId(n1, k1);
    assert id[|n1|] == '\0' && id[|n2|] == '\0';
    assert forall i | |n1| < i < |id| :: id[i] == k1[i - |n1| - 1];
    assert forall i | |n2| < i < |id| :: id[i] == k2[i - |n2| - 1];
    assert n1 == id[..|n1|] && n2 == id[..|n2|];
    assert k1 == id[|n1| + 1..] && k2 == id[|n2| + 1..];
  }

  // ----- What one call does ---------------------------------------------------

  /** Later than `previous` even when the clock went backwards. */
  function TimestampAfter(previous: int, now: int): (t: int)
    ensures t > previous && t >= now && (t == now || t == previous + 1)
  {
    if now > previous then now else previous + 1
  }

  datatype Call<+V> =
    | Set(namespace: string, key: string, value: V, now: int)
    | SetIfAbsent(namespace: string, key: string, value: V, now: int)
    | CompareAndSet(namespace: string, key: string, expectedUpdatedAt: int, value: V,
                    expectedValue: Option<V>, now: int)
    | CompareAndDelete(namespace: string, key: string, expectedUpdatedAt: int)
    | Delete(namespace: string, key: string)

  function Target<V>(call: Call<V>): Outcome<string> {
    Address(call.namespace, call.key)
  }

  /** Whether a compare finds what its caller read. */
  predicate Matches<V(==)>(records: Records<V>, id: string, expectedUpdatedAt: int, expectedValue: Option<V>) {
    && id in records
    && records[id].updatedAt == expectedUpdatedAt
    && (expectedValue.Some? ==> records[id].value == expectedValue.value)
  }

  /** Whether the call writes a record. */
  predicate Writes<V(==)>(call: Call<V>, records: Records<V>) {
    Target(call).Ok? &&
    var id := Target(call).value;
    match call
    case Set(_, _, _, _) => true
    case SetIfAbsent(_, _, _, _) => id !in records
    case CompareAndSet(_, _, expected, _, expectedValue, _) => Matches(records, id, expected, expectedValue)
    case CompareAndDelete(_, _, _) => false
    case Delete(_, _) => false
  }

  /** Whether the call removes a record. */
  predicate Removes<V(==)>(call: Call<V>, records: Records<V>) {
    Target(call).Ok? &&
    var id := Target(call).value;
    match call
    case CompareAndDelete(_, _, expected) => Matches(records, id, expected, None)
    case Delete(_, _) => id in records
    case _ => false
  }

  /** What a writing call stores. */
  function Written<V>(call: Call<V>, records: Records<V>): (r: Record<V>)
    requires Target(call).Ok? && (call.Set? || call.SetIfAbsent? || call.CompareAndSet?)
    ensures RecordId(r.namespace, r.key) == Target(call).value && r.value == call.value
    ensures Target(call).value in records ==> r.updatedAt > records[Target(call).value].updatedAt
  {
    var id := Target(call).value;
    Record(Trim(call.namespace), Trim(call.key), call.value,
           if id in records then TimestampAfter(records[id].updatedAt, call.now) else call.now)
  }

  function Apply<V(==)>(call: Call<V>, records: Records<V>): Records<V> {
    if Writes(call, records) then records[Target(call).value := Written(call, records)]
    else if Removes(call, records) then records - {Target(call).value}
    else records
  }

  /** Every record stands at its own address, under names that are already trimmed. */
  ghost predicate InPlace<V>(records: Records<V>) {
    && (forall id :: id in records ==> id == At(records[id]))
    && (forall id {:trigger Named(records[id])} :: id in records ==> Named(records[id]))
  }

  predicate Named<V>(record: Record<V>) {
    Address(record.namespace, record.key) == Ok(At(record))
  }

  function At<V>(row: Record<V>): string {
    RecordId(row.namespace, row.key)
  }

  lemma ApplyKeepsPlace<V>(call: Call<V>, records: Records<V>)
    requires InPlace(records)
    ensures InPlace(Apply(call, records))
  {
    if Writes(call, records) {
      TrimIdempotent(call.namespace);
      TrimIdempotent(call.key);
      assert Named(Written(call, records));
    }
  }

  // ----- Runs of calls --------------------------------------------------------

  function Run<V(==)>(calls: seq<Call<V>>, records: Records<V>): Records<V> {
    if calls == [] then records else Run(calls[1..], Apply(calls[0], records))
  }

  /** Some call of the run writes the record `id`. */
  predicate RunWrites<V(==)>(calls: seq<Call<V>>, records: Records<V>, id: string) {
    calls != [] &&
    (|| (Writes(calls[0], records) && Target(calls[0]).value == id)
     || RunWrites(calls[1..], Apply(calls[0], records), id))
  }

  /** Some call of the run removes the record `id`. */
  predicate RunRemoves<V(==)>(calls: seq<Call<V>>, records: Records<V>, id: string) {
    calls != [] &&
    (|| (Removes(calls[0], records) && Target(calls[0]).value == id)
     || RunRemoves(calls[1..], Apply(calls[0], records), id))
  }

  /** While a record is not removed its time never goes back, and stands still only if nothing wrote it. */
  lemma {:induction false} RunKeepsTime<V>(calls: seq<Call<V>>, records: Records<V>, id: string)
    requires id in records && !RunRemoves(calls, records, id)
    ensures id in Run(calls, records)
    ensures RunWrites(calls, records, id) ==> Run(calls, records)[id].updatedAt > records[id].updatedAt
    ensures !RunWrites(calls, records, id) ==> Run(calls, records)[id] == records[id]
  {
    if calls != [] {
      RunKeepsTime(calls[1..], Apply(calls[0], records), id);
    }
  }

  /** Every call of the run that creates the record `id` anew has a clock past `t`. */
  predicate RecreatesPast<V(==)>(calls: seq<Call<V>>, records: Records<V>, id: string, t: int) {
    calls != [] ==>
      && (Writes(calls[0], records) && Target(calls[0]).value == id && id !in records ==> calls[0].now > t)
      && RecreatesPast(calls[1..], Apply(calls[0], records), id, t)
  }

  /** A record that is not removed is not created anew. */
  lemma {:induction false} NeverRecreated<V>(calls: seq<Call<V>>, records: Records<V>, id: string, t: int)
    requires id in records && !RunRemoves(calls, records, id)
    ensures RecreatesPast(calls, records, id, t)
  {
    if calls != [] {
      NeverRecreated(calls[1..], Apply(calls[0], records), id, t);
    }
  }

  /** Once the record is gone, or later than `t`, it never carries `t` again. */
  lemma {:induction false} StaysLater<V>(calls: seq<Call<V>>, records: Records<V>, id: string, t: int)
    requires RecreatesPast(calls, records, id, t) && (id in records ==> records[id].updatedAt > t)
    ensures id in Run(calls, records) ==> Run(calls, records)[id].updatedAt > t
  {
    if calls != [] {
      StaysLater(calls[1..], Apply(calls[0], records), id, t);
    }
  }

  /**
    Optimistic concurrency: a compare-and-set with the time that was read, and with the value that was
    read or none, succeeds exactly when nobody wrote or removed the record in between. That holds
    whatever the clocks of the writers said, as long as the record is not created anew under a clock
    that is not past the time that was read; so it always holds if nobody removes the record.
  */
  lemma {:induction false} CompareAndSetSucceedsIffUntouched<V>(calls: seq<Call<V>>, records: Records<V>,
                                                  id: string, mine: Call<V>)
    requires mine.CompareAndSet? && Target(mine) == Ok(id)
    requires id in records && mine.expectedUpdatedAt == records[id].updatedAt
    requires mine.expectedValue == None || mine.expectedValue == Some(records[id].value)
    requires RecreatesPast(calls, records, id, records[id].updatedAt)
    ensures Writes(mine, Run(calls, records)) <==> !RunWrites(calls, records, id) && !RunRemoves(calls, records, id)
  {
    if calls != [] {
      var after := Apply(calls[0], records);
      if id in after && after[id] == records[id] {
        CompareAndSetSucceedsIffUntouched(calls[1..], after, id, mine);
      } else {
        StaysLater(calls[1..], after, id, records[id].updatedAt);
      }
    }
  }

  /** The same write over and over. */
  function Sets<V>(namespace: string, key: string, value: V, now: int, count: nat): seq<Call<V>> {
    if count == 0 then [] else [Set(namespace, key, value, now)] + Sets(namespace, key, value, now, count - 1)
  }

  lemma {:induction false} SetsCountUp<V>(records: Records<V>, id: string, namespace: string, key: string, value: V,
                                          now: int, count: nat)
    requires Address(namespace, key) == Ok(id) && id in records && records[id].updatedAt >= now
    requires records[id].value == value
    ensures var after := Run(Sets(namespace, key, value, now, count), records);
            id in after && after[id].updatedAt == records[id].updatedAt + count && after[id].value == value
  {
    if count > 0 {
      var calls := Sets(namespace, key, value, now, count);
      assert calls[1..] == Sets(namespace, key, value, now, count - 1);
      hide Address;
      SetsCountUp(Apply(calls[0], records), id, namespace, key, value, now, count - 1);
    }
  }

  /**
    The condition is exact for every clock: after a removal and a re-creation under any clock that is
    not past the time that was read, writes under that clock bring the record back to that time, and
    the compare-and-set overwrites it.
  */
  lemma RemovalBreaksTheComparison<V>(records: Records<V>, id: string, namespace: string, key: string, value: V,
                                      now: int, mine: Call<V>)
    requires Address(namespace, key) == Ok(id) && id in records && now <= records[id].updatedAt
    requires mine.CompareAndSet? && Target(mine) == Ok(id) && mine.expectedUpdatedAt == records[id].updatedAt
    requires mine.expectedValue == None || mine.expectedValue == Some(value)
    ensures var calls := [Delete(namespace, key)] + Sets(namespace, key, value, now, records[id].updatedAt - now + 1);
            RunRemoves(calls, records, id) && RunWrites(calls, records, id) && Writes(mine, Run(calls, records))
  {
    var sets := Sets(namespace, key, value, now, records[id].updatedAt - now + 1);
    var calls := [Delete(namespace, key)] + sets;
    var removed := Apply(calls[0], records);
    assert calls[1..] == sets && sets[1..] == Sets(namespace, key, value, now, records[id].updatedAt - now);
    assert RunWrites(sets, removed, id);
    hide Address;
    SetsCountUp(Apply(sets[0], removed), id, namespace, key, value, now, records[id].updatedAt - now);
  }

  // ----- Listing ------------------------------------------------------------

  function InNamespace<V>(records: Records<V>, name: string): set<string> {
    set id | id in records && records[id].namespace == name
  }

  /** `rows` holds the records at `ids`, each once. */
  ghost predicate Lists<V>(rows: seq<Record<V>>, records: Records<V>, ids: set<string>) {
    && (forall i :: 0 <= i < |rows| ==> At(rows[i]) in ids && At(rows[i]) in records && records[At(rows[i])] == rows[i])
    && (forall i, j :: 0 <= i < j < |rows| ==> At(rows[i]) != At(rows[j]))
    && (forall id :: id in ids ==> exists i :: 0 <= i < |rows| && At(rows[i]) == id)
  }

  lemma ListsOneMore<V>(rows: seq<Record<V>>, records: Records<V>, ids: set<string>, id: string)
    requires Lists(rows, records, ids) && id in records && id !in ids && At(records[id]) == id
    ensures Lists(rows + [records[id]], records, ids + {id})
  {
    var more := rows + [records[id]];
    forall x | x in ids + {id}
      ensures exists i :: 0 <= i < |more| && At(more[i]) == x
    {
      if x == id {
        assert At(more[|rows|]) == id;
      } else {
        var i :| 0 <= i < |rows| && At(rows[i]) == x;
        assert At(more[i]) == x;
      }
    }
  }

  method Gather<V>(records: Records<V>, ids: set<string>) returns (rows: seq<Record<V>>)
    requires ids <= records.Keys && InPlace(records)
    ensures Lists(rows, records, ids)
  {
    rows := [];
    var left := ids;
    ghost var done := {};
    while left != {}
      invariant done !! left && done + left == ids
      invariant Lists(rows, records, done)
    {
      var id :| id in left;
      ListsOneMore(rows, records, done, id);
      rows := rows + [records[id]];
      left := left - {id};
      done := done + {id};
    }
  }

  // ----- The store object ------------------------------------------------------

  class MemorySystemStore<V(==)> {
    var records: Records<V>

    ghost predicate Valid()
      reads this
    {
      InPlace(records)
    }

    constructor ()
      ensures Valid() && records == map[]
    {
      records := map[];
    }

    method Get(namespace: string, key: string) returns (r: Outcome<Option<Record<V>>>)
      ensures match Address(namespace, key)
              case Rejected(e) => r == Rejected(e)
              case Ok(id) => r == Ok(if id in records then Some(records[id]) else None)
    {
      var address := Address(namespace, key);
      if address.Rejected? {
        return Rejected(address.error);
      }
      var id := address.value;
      r := Ok(if id in records then Some(records[id]) else None);
    }

    method Set(namespace: string, key: string, value: V, now: int) returns (r: Outcome<Record<V>>)
      requires Valid()
      modifies this
      ensures Valid() && records == Apply(Call.Set(namespace, key, value, now), old(records))
      ensures match Address(namespace, key)
              case Rejected(e) => r == Rejected(e)
              case Ok(id) => id in records && r == Ok(records[id])
    {
      ApplyKeepsPlace(Call.Set(namespace, key, value, now), records);
      var address := Address(namespace, key);
      if address.Rejected? {
        return Rejected(address.error);
      }
      var id := address.value;
      var record := Record(Trim(namespace), Trim(key), value,
                           if id in records then TimestampAfter(records[id].updatedAt, now) else now);
      records := records[id := record];
      r := Ok(record);
    }

    method SetIfAbsent(namespace: string, key: string, value: V, now: int)
      returns (r: Outcome<(bool, Record<V>)>)
      requires Valid()
      modifies this
      ensures Valid() && records == Apply(Call.SetIfAbsent(namespace, key, value, now), old(records))
      ensures match Address(namespace, key)
              case Rejected(e) => r == Rejected(e)
              case Ok(id) => id in records && r == Ok((id !in old(records), records[id]))
    {
      ApplyKeepsPlace(Call.SetIfAbsent(namespace, key, value, now), records);
      var address := Address(namespace, key);
      if address.Rejected? {
        return Rejected(address.error);
      }
      var id := address.value;
      if id in records {
        return Ok((false, records[id]));
      }
      var record := Record(Trim(namespace), Trim(key), value, now);
      records := records[id := record];
      r := Ok((true, record));
    }

    method CompareAndSet(namespace: string, key: string, expectedUpdatedAt: int, value: V,
                         expectedValue: Option<V>, now: int) returns (r: Outcome<Option<Record<V>>>)
      requires Valid()
      modifies this
      ensures var call := Call.CompareAndSet(namespace, key, expectedUpdatedAt, value, expectedValue, now);
              && Valid() && records == Apply(call, old(records))
              && match Address(namespace, key)
                 case Rejected(e) => r == Rejected(e)
                 case Ok(id) => r == Ok(if Writes(call, old(records)) then Some(Written(call, old(records))) else None)
    {
      ApplyKeepsPlace(Call.CompareAndSet(namespace, key, expectedUpdatedAt, value, expectedValue, now), records);
      var address := Address(namespace, key);
      if address.Rejected? {
        return Rejected(address.error);
      }
      var id := address.value;
      if id !in records || records[id].updatedAt != expectedUpdatedAt
         || (expectedValue.Some? && records[id].value != expectedValue.value) {
        return Ok(None);
      }
      var record := Record(Trim(namespace), Trim(key), value, TimestampAfter(records[id].updatedAt, now));
      records := records[id := record];
      r := Ok(Some(record));
    }

    method CompareAndDelete(namespace: string, key: string, expectedUpdatedAt: int)
      returns (r: Outcome<bool>)
      requires Valid()
      modifies this
      ensures var call := Call.CompareAndDelete(namespace, key, expectedUpdatedAt);
              && Valid() && records == Apply(call, old(records))
              && match Address(namespace, key)
                 case Rejected(e) => r == Rejected(e)
                 case Ok(id) => r == Ok(Removes(call, old(records)))
    {
      ApplyKeepsPlace(Call.CompareAndDelete(namespace, key, expectedUpdatedAt), records);
      var address := Address(namespace, key);
      if address.Rejected? {
        return Rejected(address.error);
      }
      var id := address.value;
      if id !in records || records[id].updatedAt != expectedUpdatedAt {
        return Ok(false);
      }
      records := records - {id};
      r := Ok(true);
    }

    method Delete(namespace: string, key: string) returns (r: Outcome<bool>)
      requires Valid()
      modifies this
      ensures Valid() && records == Apply(Call.Delete(namespace, key), old(records))
      ensures match Address(namespace, key)
              case Rejected(e) => r == Rejected(e)
              case Ok(id) => r == Ok(id in old(records))
    {
      ApplyKeepsPlace(Call.Delete(namespace, key), records);
      var address := Address(namespace, key);
      if address.Rejected? {
        return Rejected(address.error);
      }
      var id := address.value;
      r := Ok(id in records);
      records := records - {id};
    }

    /** The records of one namespace, each once. */
    method List(namespace: string) returns (r: Outcome<seq<Record<V>>>)
      requires Valid()
      ensures if Trim(namespace) == "" then r == Rejected(EmptyNamespace)
              else r.Ok? && Lists(r.value, records, InNamespace(records, Trim(namespace)))
    {
      if Trim(namespace) == "" {
        return Rejected(EmptyNamespace);
      }
      var rows := Gather(records, InNamespace(records, Trim(namespace)));
      r := Ok(rows);
    }
  }
}
