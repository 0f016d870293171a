/**
 * The ingestion pipeline of `realm.ts`: the per-page batch fold
 * (`processSubrealm`), the pagination loop over `find_subrealms`
 * (`getSubrealms`) and the queue-message guard (`realmHandler`). Remote
 * calls and the database are oracles carried in an `Env`.
 */
module Pipeline {
  import opened Wrappers
  import opened Indexer
  import opened Address
  import opened Storage
  import opened Enrichment

  /**
   * The outside world of one message:
   * - `findSubrealms(parentId, offset, k)` answers the k-th listing request
   *   of the run (counting from 0), so a repeated request may be answered
   *   differently;
   * - `getState(id)` answers a record query;
   * - `decode` is the address routine;
   * - `writeOk(name)` says whether the database accepts the writes for a name.
   */
  datatype Env = Env(
    findSubrealms: (string, nat, nat) -> Reply<ListPayload>,
    getState: string -> Reply<StatePayload>,
    decode: Decoder,
    writeOk: string -> bool)

  /** The dotted name a child is stored under. */
  function Combined(realm: string, subrealm: string): string {
    realm + "." + subrealm
  }

  /** The record a listing entry enriches to. */
  function Enriched(env: Env, entry: SubrealmResult): Option<RealmData> {
    GetSubrealm(env.getState, env.decode, entry.atomicalId)
  }

  /** An entry ends up written: enrichment gave a record and the database took it. */
  predicate Stored(env: Env, realm: string, entry: SubrealmResult) {
    Enriched(env, entry).Some? && env.writeOk(Combined(realm, entry.subrealm))
  }

  /** The write one entry amounts to: none unless it is stored. */
  function EntryWrites(env: Env, realm: string, entry: SubrealmResult): seq<Write> {
    if Stored(env, realm, entry) then [Write(Combined(realm, entry.subrealm), Enriched(env, entry).value)] else []
  }

  /** The writes a page amounts to, in page order: one per stored entry. */
  function Writes(env: Env, realm: string, results: seq<SubrealmResult>): seq<Write>
    decreases |results|
  {
    if results == [] then [] else EntryWrites(env, realm, results[0]) + Writes(env, realm, results[1..])
  }

  /**
   * One iteration of the loop in `processSubrealm`: the entry is queried, and
   * if its record arrives it is saved under its dotted name; the flag
   * `saveToD1` returns is not looked at.
   */
  function ProcessEntry(env: Env, realm: string, entry: SubrealmResult, store: Store): (r: Store)
    ensures r == ApplyWrites(store, EntryWrites(env, realm, entry))
  {
    var name := Combined(realm, entry.subrealm);
    match Enriched(env, entry)
    case Some(data) => SaveToD1(store, name, data, env.writeOk(name)).store
    case None => store
  }

  /** The loop of `processSubrealm`, over the entries in page order. */
  function ProcessEntries(env: Env, realm: string, results: seq<SubrealmResult>, store: Store): (r: Store)
    ensures r == ApplyWrites(store, Writes(env, realm, results))
    decreases |results|
  {
    if results == [] then store
    else
      var e := results[0];
      var rest := ProcessEntries(env, realm, results[1..], ProcessEntry(env, realm, e, store));
      ApplyWritesAppend(store, EntryWrites(env, realm, e), Writes(env, realm, results[1..]));
      rest
  }

  /** `processSubrealm`: an empty page does nothing. */
  function ProcessSubrealm(env: Env, realm: string, results: seq<SubrealmResult>, store: Store): (r: Store)
    ensures r == ApplyWrites(store, Writes(env, realm, results))
  {
    if |results| > 0 then ProcessEntries(env, realm, results, store) else store
  }

  /** A name absent before a page is present after it exactly when some entry of the page was stored under it. */
  lemma {:induction false} NewNamesAreStoredEntries(env: Env, realm: string, results: seq<SubrealmResult>, store: Store, name: string)
    requires name !in store
    ensures name in ProcessSubrealm(env, realm, results, store) <==>
            exists i :: 0 <= i < |results| && Combined(realm, results[i].subrealm) == name && Stored(env, realm, results[i])
    decreases |results|
  {
    ApplyWritesKeys(store, Writes(env, realm, results));
    WritesNames(env, realm, results, name);
  }

  /** A name is written by a page exactly when some entry of the page is stored under it. */
  lemma {:induction false} WritesNames(env: Env, realm: string, results: seq<SubrealmResult>, name: string)
    ensures name in Names(Writes(env, realm, results)) <==>
            exists i :: 0 <= i < |results| && Combined(realm, results[i].subrealm) == name && Stored(env, realm, results[i])
    decreases |results|
  {
    if results != [] {
      var e := results[0];
      var head := EntryWrites(env, realm, e);
      var tail := Writes(env, realm, results[1..]);
      WritesNames(env, realm, results[1..], name);
      assert Writes(env, realm, results) == head + tail;
      assert Names(head + tail) == Names(head) + Names(tail);
      if exists i :: 0 <= i < |results| && Combined(realm, results[i].subrealm) == name && Stored(env, realm, results[i]) {
        var i :| 0 <= i < |results| && Combined(realm, results[i].subrealm) == name && Stored(env, realm, results[i]);
        if i > 0 {
          assert results[1..][i - 1] == results[i];
        }
      }
      if exists j :: 0 <= j < |results[1..]| && Combined(realm, results[1..][j].subrealm) == name && Stored(env, realm, results[1..][j]) {
        var j :| 0 <= j < |results[1..]| && Combined(realm, results[1..][j].subrealm) == name && Stored(env, realm, results[1..][j]);
        assert results[j + 1] == results[1..][j];
      }
    }
  }

  /**
   * A row that existed before a page keeps its identity, number and minter
   * through it, whatever the page holds; only owner and profile id follow the
   * page (see `Storage.ApplyWritesEffect`).
   */
  lemma PageKeepsWriteOnceColumns(env: Env, realm: string, results: seq<SubrealmResult>, store: Store, name: string)
    requires name in store
    ensures var s := ProcessSubrealm(env, realm, results, store);
            && name in s
            && s[name].realmId == store[name].realmId
            && s[name].realmNumber == store[name].realmNumber
            && s[name].realmMinter == store[name].realmMinter
  {
    WriteOnceColumnsKept(store, Writes(env, realm, results), name);
  }

  // ---------------------------------------------------------------- pagination

  /** The page size of every listing request. */
  const PageSize: nat := 200

  /** The loop state of `getSubrealms`. */
  datatype ListState = ListState(page: nat, offset: nat, needMore: bool)

  /** The state before the first request. */
  function Start(): (st: ListState)
    ensures st == ListState(0, 0, true)
    ensures st.offset == st.page * PageSize
  {
    ListState(0, 0 * PageSize, true)
  }

  /**
   * The page list a reply carries, or None when the listing must stop: a
   * failed or unparsable reply, a falsy body, an unset success flag or a
   * missing result. An empty list is truthy and is a page.
   */
  function PageResults(reply: Reply<ListPayload>): (r: Option<seq<SubrealmResult>>)
    ensures r.Some? <==> reply.Json? && reply.body.Some? && reply.body.value.success
                         && reply.body.value.response.Some? && reply.body.value.response.value.result.Some?
    ensures r.Some? ==> r == reply.body.value.response.value.result
  {
    match reply
    case Json(Some(p)) =>
      if !p.success then None
      else
        (match p.response
         case Some(resp) => resp.result
         case None => None)
    case _ => None
  }

  /**
   * The state update after a page of `len` entries. A full page moves to the
   * next page, a short non-empty page ends the listing, and an empty page
   * changes nothing.
   */
  function Advance(st: ListState, len: nat): (r: ListState)
    ensures st.offset == st.page * PageSize ==> r.offset == r.page * PageSize
    ensures len == 0 ==> r == st
    ensures 0 < len < PageSize ==> r.page == st.page && !r.needMore
    ensures len >= PageSize ==> r.page == st.page + 1 && r.needMore == st.needMore
  {
    if len > 0 then
      if len < PageSize then st.(needMore := false)
      else ListState(st.page + 1, (st.page + 1) * PageSize, st.needMore)
    else st
  }

  /**
   * Why a listing ended. `OutOfFuel` marks one that had not ended within the
   * bound; `Skipped` marks a message for which no listing was started.
   */
  datatype Stop = Finished | Aborted | OutOfFuel | Skipped

  /**
   * The request side of a listing: the offsets requested in order, the pages
   * that arrived in order, why it ended and the last loop state.
   */
  datatype Trace = Trace(offsets: seq<nat>, pages: seq<seq<SubrealmResult>>, stop: Stop, final: ListState)

  /**
   * The `while (needMore)` loop of `getSubrealms` from state `st`, `n`
   * requests into the run, for at most `fuel` more iterations. Which offsets
   * are requested depends only on the replies, never on the table.
   */
  function Paginate(find: (string, nat, nat) -> Reply<ListPayload>, id: string, st: ListState, n: nat, fuel: nat): (t: Trace)
    ensures |t.offsets| == |t.pages| + (if t.stop == Aborted then 1 else 0)
    ensures t.stop != Skipped
    ensures t.stop == Finished <==> !t.final.needMore
    ensures t.stop == OutOfFuel ==> |t.offsets| == fuel
    ensures |t.offsets| <= fuel
    decreases fuel
  {
    if !st.needMore then Trace([], [], Finished, st)
    else if fuel == 0 then Trace([], [], OutOfFuel, st)
    else
      match PageResults(find(id, st.offset, n))
      case None => Trace([st.offset], [], Aborted, st)
      case Some(results) =>
        var rest := Paginate(find, id, Advance(st, |results|), n + 1, fuel - 1);
        Trace([st.offset] + rest.offsets, [results] + rest.pages, rest.stop, rest.final)
  }

  /** Each page handed to `processSubrealm`, in the order the pages arrived. */
  function ProcessPages(env: Env, realm: string, pages: seq<seq<SubrealmResult>>, store: Store): Store
    decreases |pages|
  {
    if pages == [] then store
    else ProcessPages(env, realm, pages[1..], ProcessSubrealm(env, realm, pages[0], store))
  }

  /** A listing for one message: the table afterwards and the request side. */
  datatype Listing = Listing(store: Store, trace: Trace)

  /**
   * `getSubrealms`: the listing from its start state, every arrived page
   * processed in order. A page is processed before the next request is sent;
   * since replies never depend on the table, the model states the two parts
   * side by side.
   */
  function GetSubrealms(env: Env, realm: string, id: string, store: Store, fuel: nat): (r: Listing)
    ensures r.trace == Paginate(env.findSubrealms, id, Start(), 0, fuel)
    ensures r.store == ApplyWrites(store, PagesWrites(env, realm, r.trace.pages))
    ensures fuel > 0 ==> |r.trace.offsets| > 0 && r.trace.offsets[0] == 0
    ensures |r.trace.offsets| <= |r.trace.pages| + 1
    ensures forall i :: 0 <= i < |r.trace.offsets| ==> r.trace.offsets[i] == FullPages(r.trace.pages[..i]) * PageSize
  {
    var t := Paginate(env.findSubrealms, id, Start(), 0, fuel);
    ProcessPagesApplies(env, realm, t.pages, store);
    OffsetIsPageTimesSize(env.findSubrealms, id, Start(), 0, fuel);
    Listing(ProcessPages(env, realm, t.pages, store), t)
  }

  /**
   * A listing follows the replies it got: the i-th page is the list carried
   * by the reply to request `n + i` at the i-th offset, an abort is a reply
   * at the next offset that carried no list, and a listing that had to
   * request and finished ended on a short non-empty page.
   */
  lemma {:induction false} PaginateFollowsReplies(find: (string, nat, nat) -> Reply<ListPayload>, id: string, st: ListState, n: nat, fuel: nat)
    ensures Follows(find, id, n, st.needMore, Paginate(find, id, st, n, fuel))
    decreases fuel
  {
    if st.needMore && fuel > 0 && PageResults(find(id, st.offset, n)).Some? {
      var results := PageResults(find(id, st.offset, n)).value;
      var st' := Advance(st, |results|);
      var rest := Paginate(find, id, st', n + 1, fuel - 1);
      PaginateFollowsReplies(find, id, st', n + 1, fuel - 1);
      assert Paginate(find, id, st, n, fuel) == Trace([st.offset] + rest.offsets, [results] + rest.pages, rest.stop, rest.final);
      FollowsStep(find, id, n, st.offset, results, st'.needMore, rest);
    }
  }

  /**
   * The converse of the last clause of `PaginateFollowsReplies`: a page of 1
   * to 199 entries is always the last page, and the run finishes right after it.
   */
  lemma {:induction false} ShortPageEndsRun(find: (string, nat, nat) -> Reply<ListPayload>, id: string, st: ListState, n: nat, fuel: nat, i: nat)
    requires i < |Paginate(find, id, st, n, fuel).pages|
    requires 0 < |Paginate(find, id, st, n, fuel).pages[i]| < PageSize
    ensures i == |Paginate(find, id, st, n, fuel).pages| - 1
    ensures Paginate(find, id, st, n, fuel).stop == Finished
    decreases fuel
  {
    var results := PageResults(find(id, st.offset, n)).value;
    var st' := Advance(st, |results|);
    var rest := Paginate(find, id, st', n + 1, fuel - 1);
    assert Paginate(find, id, st, n, fuel).pages == [results] + rest.pages;
    if i == 0 {
      assert !st'.needMore;
    } else {
      assert rest.pages[i - 1] == Paginate(find, id, st, n, fuel).pages[i];
      ShortPageEndsRun(find, id, st', n + 1, fuel - 1, i - 1);
    }
  }

  /** What `PaginateFollowsReplies` states of a trace of requests `n`, `n + 1`, ... */
  predicate Follows(find: (string, nat, nat) -> Reply<ListPayload>, id: string, n: nat, needMore: bool, t: Trace)
    requires |t.offsets| == |t.pages| + (if t.stop == Aborted then 1 else 0)
  {
    && (forall i :: 0 <= i < |t.pages| ==> PageResults(find(id, t.offsets[i], n + i)) == Some(t.pages[i]))
    && (t.stop == Aborted ==> PageResults(find(id, t.offsets[|t.pages|], n + |t.pages|)).None?)
    && (t.stop == Finished && needMore ==> |t.pages| > 0 && 0 < |t.pages[|t.pages| - 1]| < PageSize)
  }

  /** The inductive step of `PaginateFollowsReplies`, on the traces alone. */
  lemma FollowsStep(find: (string, nat, nat) -> Reply<ListPayload>, id: string, n: nat, offset: nat,
                    results: seq<SubrealmResult>, needMore: bool, rest: Trace)
    requires |rest.offsets| == |rest.pages| + (if rest.stop == Aborted then 1 else 0)
    requires PageResults(find(id, offset, n)) == Some(results)
    requires Follows(find, id, n + 1, needMore, rest)
    requires rest.stop == Finished && !needMore ==> rest.pages == [] && 0 < |results| < PageSize
    requires rest.stop == Finished && needMore ==> |results| == 0 || |results| >= PageSize
    ensures Follows(find, id, n, true, Trace([offset] + rest.offsets, [results] + rest.pages, rest.stop, rest.final))
  {
  }

  /** The number of full pages in a list of pages. */
  function FullPages(pages: seq<seq<SubrealmResult>>): nat
    decreases |pages|
  {
    if pages == [] then 0
    else (if |pages[0]| >= PageSize then 1 else 0) + FullPages(pages[1..])
  }

  /**
   * Every request's offset is `page * PageSize`, where `page` counts the full
   * pages seen before it.
   */
  lemma {:induction false} OffsetIsPageTimesSize(find: (string, nat, nat) -> Reply<ListPayload>, id: string, st: ListState, n: nat, fuel: nat)
    requires st.offset == st.page * PageSize
    ensures var t := Paginate(find, id, st, n, fuel);
            && t.final.offset == t.final.page * PageSize
            && forall i :: 0 <= i < |t.offsets| ==> t.offsets[i] == (st.page + FullPages(t.pages[..i])) * PageSize
    decreases fuel
  {
    if st.needMore && fuel > 0 && PageResults(find(id, st.offset, n)).Some? {
      var results := PageResults(find(id, st.offset, n)).value;
      var st' := Advance(st, |results|);
      OffsetIsPageTimesSize(find, id, st', n + 1, fuel - 1);
      ShiftedOffsets(st, |results|, Paginate(find, id, st', n + 1, fuel - 1), Paginate(find, id, st, n, fuel));
    }
  }

  /** The inductive step of `OffsetIsPageTimesSize`, on the traces alone. */
  lemma ShiftedOffsets(st: ListState, len: nat, rest: Trace, t: Trace)
    requires |rest.offsets| <= |rest.pages| + 1 && |t.pages| == |rest.pages| + 1 && |t.pages[0]| == len
    requires t.offsets == [st.offset] + rest.offsets && t.pages[1..] == rest.pages
    requires st.offset == st.page * PageSize
    requires 0 < len < PageSize ==> rest.offsets == []
    requires forall i :: 0 <= i < |rest.offsets| ==>
               rest.offsets[i] == (Advance(st, len).page + FullPages(rest.pages[..i])) * PageSize
    ensures forall i :: 0 <= i < |t.offsets| ==> t.offsets[i] == (st.page + FullPages(t.pages[..i])) * PageSize
  {
    forall i | 0 <= i < |t.offsets|
      ensures t.offsets[i] == (st.page + FullPages(t.pages[..i])) * PageSize
    {
      if i == 0 {
        assert t.pages[..0] == [];
      } else {
        assert t.pages[..i][0] == t.pages[0];
        assert t.pages[..i][1..] == rest.pages[..i - 1];
        assert t.offsets[i] == rest.offsets[i - 1];
      }
    }
  }

  /** The writes of a list of pages, page after page. */
  function PagesWrites(env: Env, realm: string, pages: seq<seq<SubrealmResult>>): seq<Write>
    decreases |pages|
  {
    if pages == [] then [] else Writes(env, realm, pages[0]) + PagesWrites(env, realm, pages[1..])
  }

  /**
   * Processing pages one after the other applies all their writes in order:
   * whatever ends a listing, even an abort, nothing stored for an earlier
   * page is lost.
   */
  lemma {:induction false} ProcessPagesApplies(env: Env, realm: string, pages: seq<seq<SubrealmResult>>, store: Store)
    ensures ProcessPages(env, realm, pages, store) == ApplyWrites(store, PagesWrites(env, realm, pages))
    decreases |pages|
  {
    if pages != [] {
      var next := ProcessSubrealm(env, realm, pages[0], store);
      ProcessPagesApplies(env, realm, pages[1..], next);
      ApplyWritesAppend(store, Writes(env, realm, pages[0]), PagesWrites(env, realm, pages[1..]));
    }
  }

  /** The reply to the k-th request at `offset` carries a page of exactly `len` entries. */
  predicate PageOfSize(find: (string, nat, nat) -> Reply<ListPayload>, id: string, offset: nat, k: nat, len: nat) {
    var p := PageResults(find(id, offset, k));
    p.Some? && |p.value| == len
  }

  /** Pages of 200, 200 and 57 entries: three requests at offsets 0, 200 and 400, then the listing ends. */
  lemma ThreePageListing(find: (string, nat, nat) -> Reply<ListPayload>, id: string, fuel: nat)
    requires fuel >= 3
    requires PageOfSize(find, id, 0, 0, 200) && PageOfSize(find, id, 200, 1, 200) && PageOfSize(find, id, 400, 2, 57)
    ensures var t := Paginate(find, id, Start(), 0, fuel);
            t.offsets == [0, 200, 400] && t.stop == Finished && |t.pages| == 3
  {
    var s1 := ListState(1, 200, true);
    var s2 := ListState(2, 400, true);
    assert Advance(Start(), 200) == s1 && Advance(s1, 200) == s2;
    assert !Advance(s2, 57).needMore;
    assert Paginate(find, id, Advance(s2, 57), 3, fuel - 3).offsets == [];
    var t2 := Paginate(find, id, s2, 2, fuel - 2);
    assert t2.offsets == [400];
    var t1 := Paginate(find, id, s1, 1, fuel - 1);
    assert t1.offsets == [200, 400];
  }

  /**
   * While every answer at the current offset is an empty page, the loop
   * re-requests that same offset on every iteration and never ends: whatever
   * the bound, the run is cut off in the state it started in.
   */
  lemma {:induction false} EmptyPageRepeats(find: (string, nat, nat) -> Reply<ListPayload>, id: string, st: ListState, n: nat, fuel: nat)
    requires st.needMore
    requires forall k: nat :: n <= k ==> PageResults(find(id, st.offset, k)) == Some([])
    ensures var t := Paginate(find, id, st, n, fuel);
            && t.stop == OutOfFuel
            && t.final == st
            && |t.offsets| == fuel
            && (forall i :: 0 <= i < |t.offsets| ==> t.offsets[i] == st.offset)
            && (forall i :: 0 <= i < |t.pages| ==> t.pages[i] == [])
    decreases fuel
  {
    if fuel > 0 {
      assert PageResults(find(id, st.offset, n)) == Some([]);
      EmptyPageRepeats(find, id, st, n + 1, fuel - 1);
    }
  }

  /** Empty pages store nothing. */
  lemma {:induction false} EmptyPagesStoreNothing(env: Env, realm: string, pages: seq<seq<SubrealmResult>>, store: Store)
    requires forall i :: 0 <= i < |pages| ==> pages[i] == []
    ensures ProcessPages(env, realm, pages, store) == store
    decreases |pages|
  {
    if pages != [] {
      assert pages[0] == [];
      EmptyPagesStoreNothing(env, realm, pages[1..], store);
    }
  }

  /**
   * A parent whose first page keeps coming back empty: the listing requests
   * offset 0 again and again, never ends, and stores nothing.
   */
  lemma EmptyFirstPageNeverEnds(env: Env, realm: string, id: string, store: Store, fuel: nat)
    requires forall k: nat :: PageResults(env.findSubrealms(id, 0, k)) == Some([])
    ensures var r := GetSubrealms(env, realm, id, store, fuel);
            && r.trace.stop == OutOfFuel
            && r.store == store
            && |r.trace.offsets| == fuel
            && forall i :: 0 <= i < |r.trace.offsets| ==> r.trace.offsets[i] == 0
  {
    EmptyPageRepeats(env.findSubrealms, id, Start(), 0, fuel);
    EmptyPagesStoreNothing(env, realm, Paginate(env.findSubrealms, id, Start(), 0, fuel).pages, store);
  }

  /** A listing that ended within its bound ends the same way with any larger bound. */
  lemma {:induction false} MoreFuelSameTrace(find: (string, nat, nat) -> Reply<ListPayload>, id: string, st: ListState, n: nat, fuel: nat, more: nat)
    requires fuel <= more
    requires Paginate(find, id, st, n, fuel).stop != OutOfFuel
    ensures Paginate(find, id, st, n, more) == Paginate(find, id, st, n, fuel)
    decreases fuel
  {
    if st.needMore && fuel > 0 {
      var reply := PageResults(find(id, st.offset, n));
      if reply.Some? {
        MoreFuelSameTrace(find, id, Advance(st, |reply.value|), n + 1, fuel - 1, more - 1);
      }
    }
  }

  // ---------------------------------------------------------------- handler

  /** A string-valued field of a queue message. */
  datatype JsString = Undefined | Null | Str(s: string)

  /** A queue message body: `realm` may be missing for a root-level trigger. */
  datatype Message = Message(realm: JsString, id: JsString)

  function AsOption(v: JsString): Option<string> {
    if v.Str? then Some(v.s) else None
  }

  /** How a field reads inside a template literal. */
  function Text(v: JsString): string {
    match v
    case Undefined => "undefined"
    case Null => "null"
    case Str(s) => s
  }

  /**
   * `realmHandler`: with a falsy `id` nothing is requested and nothing stored;
   * otherwise the listing runs for the message's parent, whose name reads as
   * a template literal renders it.
   */
  function RealmHandler(env: Env, msg: Message, store: Store, fuel: nat): (r: Listing)
    ensures !Truthy(AsOption(msg.id)) ==> r.store == store && r.trace.offsets == [] && r.trace.pages == [] && r.trace.stop == Skipped
    ensures Truthy(AsOption(msg.id)) ==> r == GetSubrealms(env, Text(msg.realm), msg.id.s, store, fuel)
  {
    if Truthy(AsOption(msg.id)) then
      GetSubrealms(env, Text(msg.realm), msg.id.s, store, fuel)
    else
      Listing(store, Trace([], [], Skipped, Start()))
  }
}
