# realms-queue ingestion pipeline, in Dafny

This project models the ingestion pipeline of `src/realm.ts`. A queue message names a parent realm and its record id. The handler pages through the indexer's `find_subrealms` listing for that parent, 200 children at a time. For every child it queries `get_state`. Only realm-family records are kept, and for those it derives the minter and owner addresses from their output scripts. It then upserts the record into the `_realms` table under the dotted name `parent.child`.

Everything outside the file is an oracle, carried in `Pipeline.Env`:

- `findSubrealms(parentId, offset, k)` answers the k-th listing request of a run, so a reissued request may get a different answer.
- `getState(id)` answers a record query.
- `decode` stands for hex decoding, `OutScript.decode` and `Address(mainnet).encode` together. It returns None where any of them would throw.
- `writeOk(name)` says whether the database accepts the statements for a name.

HTTP replies are `Indexer.Reply`: a rejected fetch, a non-OK status, a body that is not JSON, or a parsed body (None when the body is falsy). The table is a `map<string, Row>`, so it holds at most one row per name.

Modules follow the file's components:

- `Address`: `scriptAddress`.
- `Storage`: `saveToD1` and the table.
- `Enrichment`: `getSubrealm`.
- `Pipeline`: `processSubrealm`, `getSubrealms` and `realmHandler`.
- `Indexer` and `Wrappers`: the reply shapes and `Option`.

The listing loop is `Pipeline.Paginate`. It is iterated with an explicit `fuel` bound, and `OutOfFuel` marks a run that had not ended within the bound.

Two behaviours of the code that are easy to miss:

- An empty page (`[]` is truthy, so it passes the `!results` guard) leaves `page`, `offset` and `needMore` unchanged (`src/realm.ts:182`). The same offset is requested again, and the loop does not end on an empty page. `Pipeline.EmptyPageRepeats` and `Pipeline.EmptyFirstPageNeverEnds` prove that it runs into any bound.
- A truthy script that does not decode makes `scriptAddress` throw inside `getSubrealm`'s `try`. The whole record then becomes null, not just one address field (`src/realm.ts:110-118`). The same happens when `location_info` is missing, because indexing it throws.

In the source, a page is processed before the next page is requested. The replies never depend on the table, so the model states the two sides separately. `Paginate` gives the sequence of requests and pages. `ProcessPages` folds `processSubrealm` over those pages in arrival order. The final table and the requests issued are the same as with the interleaved loop.

## Model

| member | source | states |
|---|---|---|
| Address.ScriptAddress | src/realm.ts:31-42 | A null, undefined or empty script gives no address and the decoder is not consulted. Any other script is decoded for the mainnet profile. A decoding failure is a throw, and a success gives that address. |
| Storage.Upsert | src/realm.ts:44-78 | An absent name gets a row holding exactly (id, number, mintAddress, address, pid). A present name keeps RealmId, RealmNumber and RealmMinter and takes only the new owner and profile id. No other name changes, and the key set gains only the name. |
| Storage.UpsertIdempotent | src/realm.ts:72-78 | Saving the same record twice leaves the table as saving it once. The second call takes the update branch. |
| Storage.SaveToD1 | src/realm.ts:72-83 | A database failure is caught, reported as false and leaves the table unchanged. Otherwise the upsert happens and true is returned. |
| Storage.ApplyWritesKeys | src/realm.ts:72-78 | A sequence of saves adds exactly the names it touches and never removes a row. |
| Storage.ApplyWritesAppend | src/realm.ts:129-136 | Saving two batches one after the other equals saving their concatenation. |
| Storage.ApplyWritesEffect | src/realm.ts:60-78 | After a sequence of saves, an untouched name keeps its row. A touched name takes its id, number and minter from its existing row, or else from the first save under it. Its owner and profile id come from the last save under it. |
| Storage.WriteOnceColumnsKept | src/realm.ts:60-70 | No later save changes the RealmId, RealmNumber or RealmMinter of an existing row. |
| Enrichment.ProfileId | src/realm.ts:112 | The profile id is present exactly when `state.latest.d` is truthy, and then it equals `d`. |
| Enrichment.GetSubrealm | src/realm.ts:86-122 | A record comes back exactly when the reply is accepted (see the next row), and it carries the requested id. `GetSubrealmAcceptsExactly` and `AcceptedRecordFields` state the acceptance condition and the fields of a produced record. |
| Enrichment.GetSubrealmAcceptsExactly | src/realm.ts:90-121 | A record is produced if and only if all of these hold: the reply parsed to a truthy body, its success flag is set, the result has `type` NFT and `subtype` realm or subrealm, both scripts resolve without a throw, and `location_info` is present. |
| Enrichment.AcceptedRecordFields | src/realm.ts:106-114 | A produced record carries the requested id and `atomical_number`. Its minter is the decoded reveal-location script, or null when that script is falsy. Its owner is the decoded `location_info[0].script`, or null when that entry or its script is falsy. Its pid is null whenever `d` is falsy. |
| Enrichment.OtherRepliesRejected | src/realm.ts:91-108 | A failed fetch, a non-OK status, a JSON error, a falsy body, an unset success flag, a missing result, or another type or subtype each yield null. |
| Enrichment.DecodeFailureDropsRecord | src/realm.ts:110-118 | A realm-family result whose mint or owner script is truthy but undecodable yields null for the whole record. |
| Enrichment.MissingLocationInfoDropsRecord | src/realm.ts:111-118 | A result without `location_info` yields null for the whole record. |
| Pipeline.ProcessEntry | src/realm.ts:130-136 | One entry amounts to one save under `realm + "." + subrealm` when enrichment returns a record and the database accepts it, and otherwise to no change. The save's boolean is ignored. |
| Pipeline.ProcessEntries | src/realm.ts:129-137 | The entries are handled in page order. The table afterwards is the in-order saves of exactly the stored entries. An entry whose fetch returned null does not stop the later entries from being saved. |
| Pipeline.ProcessSubrealm | src/realm.ts:124-142 | The table after a page is the in-order saves of exactly its stored entries. An empty page changes nothing. |
| Pipeline.WritesNames | src/realm.ts:129-136 | A page writes a name if and only if some entry of the page is stored under it. |
| Pipeline.NewNamesAreStoredEntries | src/realm.ts:129-136 | A name absent before a page is present after it if and only if some entry with that dotted name got a record and was accepted by the database. |
| Pipeline.PageKeepsWriteOnceColumns | src/realm.ts:129-136 | A row that existed before a page keeps its RealmId, RealmNumber and RealmMinter through the page, whatever the page holds. |
| Pipeline.Start | src/realm.ts:145-149 | The listing starts at page 0, offset 0 and `needMore` set, so `offset == page * 200` holds from the start. |
| Pipeline.PageResults | src/realm.ts:157-176 | A page is delivered if and only if the reply parsed to a truthy body with the success flag and a `result`. Anything else ends the listing. The page is the reply's `response.result` list itself, and an empty list counts as a page. |
| Pipeline.Advance | src/realm.ts:180-189 | A page of 200 or more entries moves to the next page. A page with 0 < len < 200 clears `needMore`. An empty page changes nothing. `offset == page * 200` is preserved. |
| Pipeline.Paginate | src/realm.ts:153-194 | An aborted run issued one more request than pages it processed. A finished run has `needMore` cleared. A run cut off by the bound used it all. |
| Pipeline.PaginateFollowsReplies | src/realm.ts:157-189 | The i-th page of a run is the list carried by the reply to its i-th request, made at the i-th offset. An aborted run stopped at a reply that carried no list. A run that finished after requesting ended on a page of 1 to 199 entries. |
| Pipeline.ShortPageEndsRun | src/realm.ts:180-189 | Conversely, a page of 1 to 199 entries is always the last page of its run, and the run finishes right after it. |
| Pipeline.OffsetIsPageTimesSize | src/realm.ts:145-154 | Every request's offset is 200 times the number of full pages that came before it. |
| Pipeline.ProcessPagesApplies | src/realm.ts:173-178 | Processing pages in order applies all their saves in order. |
| Pipeline.GetSubrealms | src/realm.ts:144-195 | The listing's requests and pages are those of the loop run from the start state against `find_subrealms`. The table after a listing holds the saves of every page processed before it ended, an abort included. The first request is at offset 0, and each later one is at 200 times the full pages before it. |
| Pipeline.ThreePageListing | src/realm.ts:145-189 | Pages of 200, 200 and 57 entries are requested at offsets exactly 0, 200 and 400, and then the loop ends. |
| Pipeline.EmptyPageRepeats | src/realm.ts:180-189 | While the answer at the current offset is an empty page, every iteration requests that same offset. The state never changes and the run never finishes. |
| Pipeline.EmptyPagesStoreNothing | src/realm.ts:124-125 | Empty pages leave the table unchanged. |
| Pipeline.EmptyFirstPageNeverEnds | src/realm.ts:153-189 | A parent whose first page keeps coming back empty is listed at offset 0 again and again, never finishes, and stores nothing. |
| Pipeline.MoreFuelSameTrace | src/realm.ts:153-194 | A run that ended within its bound ends the same way under any larger bound. |
| Pipeline.RealmHandler | src/realm.ts:197-206 | With a falsy `id` there are no requests, no pages and no table change. Otherwise the listing runs for the parent, named as a template literal renders the `realm` field. |

## Left out

- `src/index.ts` is not part of this model: the worker entry point, the queue `send` and the sequential loop over a batch's messages.
- `fetchApiServer`, the request paths and `res.json()` are oracle replies. The fixed request parameters (`""`, `false` and the page size 200) are constants of every request and are not arguments of the oracle.
- Hex decoding, `OutScript.decode` and `Address.encode` are one opaque, possibly failing decoder. Which scripts decode and to what is not modelled.
- SQL execution is reduced to the exists, insert and update semantics over a map. A failed statement is assumed to leave the table unchanged. An absent `atomical_number`, which only the insert can bind (`src/realm.ts:55`), is assumed to be stored as null; D1 may instead reject an `undefined` bind. Because `writeOk(name)` depends on the name alone, such a data-dependent failure cannot be expressed.
- Pipeline.Env: database failure is decided per name for a whole run, and `getState` answers the same id the same way within a run. Transient storage or indexer faults that vary over time are not modelled.
- The non-atomic check-then-write race between concurrently handled messages is left out. The model is one sequential task.
- The page-level `catch` in `processSubrealm` is left out. Nothing inside that loop throws once its callees catch internally.
- Pipeline.ProcessEntries: the record queries are not an output of the model. That every entry of a page is queried, in order, shows only through the saves that follow from the replies.
- `console.error` logging is left out, and so is the unused `total` counter of `getSubrealms`.
- Pipeline.RealmHandler: the handler's return value is always null and is not represented.
- Pipeline.Paginate: termination is bounded by `fuel`. A listing that would run forever (an indexer that keeps sending full or empty pages) shows up as `OutOfFuel`, not as divergence.
- JSON fields of unexpected types (a non-string script, a non-array `result`, null entries in a page) are left out. The shapes in `Indexer` fix each field's type and make only absence explicit.
