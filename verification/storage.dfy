/**
 * The `_realms` table and `saveToD1`: a store keyed by realm name, where a
 * first write inserts every column and a later write refreshes only the owner
 * and the profile id.
 */
module Storage {
  import opened Wrappers

  /** The record `getSubrealm` hands to storage. */
  datatype RealmData = RealmData(
    id: string,
    number: Option<int>,
    mintAddress: Option<string>,
    address: Option<string>,
    pid: Option<string>)

  /** One row of `_realms`, without its key column `RealmName`. */
  datatype Row = Row(
    realmId: string,
    realmNumber: Option<int>,
    realmMinter: Option<string>,
    realmOwner: Option<string>,
    profileId: Option<string>)

  /** The table, keyed by `RealmName`: a map holds at most one row per name. */
  type Store = map<string, Row>

  function Get(store: Store, name: string): Option<Row> {
    if name in store then Some(store[name]) else None
  }

  /** The row the insert statement writes. */
  function InsertedRow(data: RealmData): Row {
    Row(data.id, data.number, data.mintAddress, data.address, data.pid)
  }

  /** The existence check followed by the insert or the update. */
  function Upsert(store: Store, name: string, data: RealmData): (r: Store)
    ensures r.Keys == store.Keys + {name}
    ensures forall k :: k in store && k != name ==> r[k] == store[k]
    ensures name !in store ==>
      r[name].realmId == data.id && r[name].realmNumber == data.number &&
      r[name].realmMinter == data.mintAddress && r[name].realmOwner == data.address &&
      r[name].profileId == data.pid
    ensures name in store ==>
      r[name].realmId == store[name].realmId && r[name].realmNumber == store[name].realmNumber &&
      r[name].realmMinter == store[name].realmMinter && r[name].realmOwner == data.address &&
      r[name].profileId == data.pid
  {
    if name !in store then store[name := InsertedRow(data)]
    else store[name := store[name].(realmOwner := data.address, profileId := data.pid)]
  }

  /** Writing the same record twice leaves the table as writing it once. */
  lemma UpsertIdempotent(store: Store, name: string, data: RealmData)
    ensures Upsert(Upsert(store, name, data), name, data) == Upsert(store, name, data)
  {
    var once := Upsert(store, name, data);
    assert once[name].(realmOwner := data.address, profileId := data.pid) == once[name];
  }

  /** The result of `saveToD1`: the table afterwards and the returned flag. */
  datatype Saved = Saved(store: Store, success: bool)

  /**
   * `saveToD1`; `writeOk` says whether the database accepted the statements.
   * A failure is caught, reported as false and leaves the table as it was.
   */
  function SaveToD1(store: Store, name: string, data: RealmData, writeOk: bool): (r: Saved)
    ensures r.success == writeOk
    ensures r.success ==> r.store == Upsert(store, name, data)
    ensures !r.success ==> r.store == store
  {
    if writeOk then Saved(Upsert(store, name, data), true) else Saved(store, false)
  }

  /** One accepted write of a record under a name. */
  datatype Write = Write(name: string, data: RealmData)

  /** The names a sequence of writes touches. */
  function Names(writes: seq<Write>): set<string> {
    set w | w in writes :: w.name
  }

  /** Applies writes in order, each as an upsert. */
  function ApplyWrites(store: Store, writes: seq<Write>): Store
    decreases |writes|
  {
    if writes == [] then store
    else ApplyWrites(Upsert(store, writes[0].name, writes[0].data), writes[1..])
  }

  /** Writes add exactly the names they touch and never remove a row. */
  lemma {:induction false} ApplyWritesKeys(store: Store, writes: seq<Write>)
    ensures ApplyWrites(store, writes).Keys == store.Keys + Names(writes)
    decreases |writes|
  {
    if writes != [] {
      var w := writes[0];
      ApplyWritesKeys(Upsert(store, w.name, w.data), writes[1..]);
      assert forall v :: v in writes <==> v == w || v in writes[1..];
    }
  }

  /** Applying two batches of writes one after the other is applying their concatenation. */
  lemma {:induction false} ApplyWritesAppend(store: Store, a: seq<Write>, b: seq<Write>)
    ensures ApplyWrites(store, a + b) == ApplyWrites(ApplyWrites(store, a), b)
    decreases |a|
  {
    if a == [] {
      assert a + b == b;
    } else {
      assert (a + b)[0] == a[0];
      assert (a + b)[1..] == a[1..] + b;
      ApplyWritesAppend(Upsert(store, a[0].name, a[0].data), a[1..], b);
    }
  }

  /** The first record written under `name`, if any. */
  function FirstWrite(writes: seq<Write>, name: string): Option<RealmData>
    decreases |writes|
  {
    if writes == [] then None
    else if writes[0].name == name then Some(writes[0].data)
    else FirstWrite(writes[1..], name)
  }

  /** The last record written under `name`, if any. */
  function LastWrite(writes: seq<Write>, name: string): Option<RealmData>
    decreases |writes|
  {
    if writes == [] then None
    else
      match LastWrite(writes[1..], name)
      case Some(d) => Some(d)
      case None => if writes[0].name == name then Some(writes[0].data) else None
  }

  /**
   * The row a name holds after a sequence of writes, stated without replaying
   * them: an untouched name keeps its row; a touched one takes its identity,
   * number and minter from the row it already had, or else from the FIRST
   * write, and its owner and profile id from the LAST write.
   */
  function Expected(store: Store, writes: seq<Write>, name: string): Option<Row> {
    match LastWrite(writes, name)
    case None => Get(store, name)
    case Some(last) =>
      var base := if name in store then store[name]
                  else match FirstWrite(writes, name)
                       case Some(first) => InsertedRow(first)
                       case None => InsertedRow(last);
      Some(base.(realmOwner := last.address, profileId := last.pid))
  }

  lemma {:induction false} LastWriteImpliesFirstWrite(writes: seq<Write>, name: string)
    requires LastWrite(writes, name).Some?
    ensures FirstWrite(writes, name).Some?
    decreases |writes|
  {
    if writes[0].name != name {
      LastWriteImpliesFirstWrite(writes[1..], name);
    }
  }

  /** Replaying writes through upserts yields exactly the rows `Expected` describes. */
  lemma {:induction false} ApplyWritesEffect(store: Store, writes: seq<Write>, name: string)
    ensures Get(ApplyWrites(store, writes), name) == Expected(store, writes, name)
    decreases |writes|
  {
    if writes != [] {
      var w := writes[0];
      var rest := writes[1..];
      var s1 := Upsert(store, w.name, w.data);
      ApplyWritesEffect(s1, rest, name);
      if LastWrite(rest, name).Some? {
        LastWriteImpliesFirstWrite(rest, name);
      }
    }
  }

  /** The identity, number and minter of a row that already exists survive any writes. */
  lemma WriteOnceColumnsKept(store: Store, writes: seq<Write>, name: string)
    requires name in store
    ensures name in ApplyWrites(store, writes)
    ensures ApplyWrites(store, writes)[name].realmId == store[name].realmId
    ensures ApplyWrites(store, writes)[name].realmNumber == store[name].realmNumber
    ensures ApplyWrites(store, writes)[name].realmMinter == store[name].realmMinter
  {
    ApplyWritesEffect(store, writes, name);
  }
}
