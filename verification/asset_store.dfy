/** The on-device image cache (utils/db.ts): one object store of `{id, data, timestamp}` records
    keyed by `id`. The IndexedDB requests are reduced to what they do to the records; whether the
    browser lets an access through is an input (`Fault`). */
module AssetStore {
  import opened Types

  /** A stored record. Only `data` is ever handed back to callers. */
  datatype DBEntry = DBEntry(id: string, data: string, timestamp: int)

  /** How the browser treats one access: everything succeeds, opening the database or starting the
      transaction fails, or the put/get request itself fails. */
  datatype Fault = NoFault | OpenFails | RequestFails

  /** How the promise of `getImageFromDB` settles: with a value (the data, or null) or by rejecting. */
  datatype Lookup = Resolved(data: Option<string>) | Rejected

  /** Records are stored under their own `id` (the store's key path is 'id'). */
  ghost predicate KeyedById(records: map<string, DBEntry>) {
    forall k :: k in records ==> records[k].id == k
  }

  /** The records after a successful `store.put`: an upsert of the record for `id`. */
  function Upsert(records: map<string, DBEntry>, id: string, data: string, now: int): map<string, DBEntry> {
    records[id := DBEntry(id, data, now)]
  }

  /** What a successful `store.get(id)` yields: the record's data, or null on a miss. */
  function Read(records: map<string, DBEntry>, id: string): Option<string> {
    if id in records then Some(records[id].data) else None
  }

  /** A read after a put of the same id returns the data just written. */
  lemma ReadAfterUpsert(records: map<string, DBEntry>, id: string, data: string, now: int)
    ensures Read(Upsert(records, id, data, now), id) == Some(data)
  {
  }

  /** A put replaces an earlier record with the same id: the newest data wins. */
  lemma UpsertReplaces(records: map<string, DBEntry>, id: string, d1: string, t1: int, d2: string, t2: int)
    ensures Upsert(Upsert(records, id, d1, t1), id, d2, t2) == Upsert(records, id, d2, t2)
    ensures Read(Upsert(Upsert(records, id, d1, t1), id, d2, t2), id) == Some(d2)
  {
  }

  /** A put leaves every record with a different id as it was. */
  lemma UpsertLeavesOthers(records: map<string, DBEntry>, id: string, data: string, now: int, other: string)
    requires other != id
    ensures other in Upsert(records, id, data, now) <==> other in records
    ensures other in records ==> Upsert(records, id, data, now)[other] == records[other]
    ensures Read(Upsert(records, id, data, now), other) == Read(records, other)
  {
  }

  /** One successful `store.put`: the id, the data and the time it was written. */
  datatype Put = Put(id: string, data: string, now: int)

  /** The records after a history of successful puts, oldest first, starting from the empty store
      the first opening creates. */
  function Replay(puts: seq<Put>): map<string, DBEntry> {
    if puts == [] then map[]
    else
      var last := puts[|puts| - 1];
      Upsert(Replay(puts[..|puts| - 1]), last.id, last.data, last.now)
  }

  /** An id that no put of the history wrote reads as null. */
  lemma {:induction false} ReadOfUnwritten(puts: seq<Put>, id: string)
    requires forall k :: 0 <= k < |puts| ==> puts[k].id != id
    ensures Read(Replay(puts), id) == None
  {
    if puts != [] {
      ReadOfUnwritten(puts[..|puts| - 1], id);
    }
  }

  /** An id reads as the data of the latest put that wrote it. */
  lemma {:induction false} ReadOfLatest(puts: seq<Put>, k: nat)
    requires k < |puts|
    requires forall j :: k < j < |puts| ==> puts[j].id != puts[k].id
    ensures Read(Replay(puts), puts[k].id) == Some(puts[k].data)
  {
    if k < |puts| - 1 {
      ReadOfLatest(puts[..|puts| - 1], k);
    }
  }

  /** Every record a history of puts leaves is stored under its own id. */
  lemma {:induction false} ReplayKeyedById(puts: seq<Put>)
    ensures KeyedById(Replay(puts))
  {
    if puts != [] {
      ReplayKeyedById(puts[..|puts| - 1]);
    }
  }

  /** The object store. */
  class ImageStore {
    var records: map<string, DBEntry>
    /** The ids of every write that went through since the store was created. */
    ghost var written: set<string>

    ghost predicate Valid()
      reads this
    {
      KeyedById(records) && records.Keys <= written
    }

    /** Opening the database for the first time creates the empty store. */
    constructor ()
      ensures Valid() && records == map[] && written == {}
    {
      records := map[];
      written := {};
    }

    /** `saveImageToDB(id, data)` at time `now`: an upsert when the browser lets the write through;
        any failure is caught and logged, so the caller never sees it and nothing is written. */
    method Save(id: string, data: string, now: int, fault: Fault)
      requires Valid()
      modifies this
      ensures Valid()
      ensures fault == NoFault ==> records == Upsert(old(records), id, data, now) && written == old(written) + {id}
      ensures fault != NoFault ==> records == old(records) && written == old(written)
    {
      if fault == NoFault {
        records := records[id := DBEntry(id, data, now)];
        written := written + {id};
      }
    }

    /** `getImageFromDB(id)`: the stored data or null; null as well when the database cannot be
        opened; a failing get request rejects, because its promise is returned without `await` and
        so escapes the surrounding catch. */
    method Get(id: string, fault: Fault) returns (r: Lookup)
      requires Valid()
      ensures fault == NoFault ==> r == Resolved(Read(records, id))
      ensures fault == OpenFails ==> r == Resolved(None)
      ensures fault == RequestFails ==> r == Rejected
      ensures r.Resolved? && r.data.Some? ==> id in records && records[id].id == id && records[id].data == r.data.value
      ensures id !in written && fault != RequestFails ==> r == Resolved(None)
    {
      match fault
      case OpenFails =>
        r := Resolved(None);
      case RequestFails =>
        r := Rejected;
      case NoFault =>
        if id in records {
          r := Resolved(Some(records[id].data));
        } else {
          r := Resolved(None);
        }
    }
  }
}
