/**
 * The reply shapes of the two indexer endpoints the pipeline calls
 * (`blockchain.atomicals.find_subrealms` and `blockchain.atomicals.get_state`),
 * with every field the code reads made explicit and optional where the code
 * tolerates its absence.
 */
module Indexer {
  import opened Wrappers

  /** How one HTTP round trip to the indexer ended. */
  datatype Reply<T> =
    | FetchThrew              // the fetch itself rejected
    | NotOk                   // the response status was not OK
    | JsonThrew               // the body could not be parsed as JSON
    | Json(body: Option<T>)   // the parsed body; None for a falsy one

  /** `mint_info` of a record. */
  datatype MintInfo = MintInfo(revealLocationScript: Option<string>)

  /** One entry of `location_info`. */
  datatype Location = Location(script: Option<string>)

  /** `state.latest` of a record; `d` holds the profile id. */
  datatype Latest = Latest(d: Option<string>)

  /** `state` of a record. */
  datatype RecordState = RecordState(latest: Option<Latest>)

  /** `response.result` of `get_state`; `kind` is the JSON field `type`. */
  datatype StateResult = StateResult(
    kind: Option<string>,
    subtype: Option<string>,
    atomicalNumber: Option<int>,
    mintInfo: Option<MintInfo>,
    locationInfo: Option<seq<Option<Location>>>,
    state: Option<RecordState>)

  datatype StateResponse = StateResponse(result: Option<StateResult>)

  /** Body of a `get_state` reply; `success` is the truthiness of its success flag. */
  datatype StatePayload = StatePayload(success: bool, response: Option<StateResponse>)

  /** One entry of a `find_subrealms` page. */
  datatype SubrealmResult = SubrealmResult(
    atomicalId: string,
    status: string,
    subrealm: string,
    subrealmHex: string,
    txNum: int)

  datatype ListResponse = ListResponse(result: Option<seq<SubrealmResult>>)

  /** Body of a `find_subrealms` reply. */
  datatype ListPayload = ListPayload(success: bool, response: Option<ListResponse>)
}
