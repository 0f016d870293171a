/**
 * `getSubrealm`: one `get_state` query for a record id, filtered to the
 * realm family and turned into the record storage expects. Every failure,
 * including a throw from address derivation, ends in no record.
 */
module Enrichment {
  import opened Wrappers
  import opened Indexer
  import opened Address
  import opened Storage

  /** `data.response?.result`. */
  function ResultOf(p: StatePayload): Option<StateResult> {
    match p.response
    case None => None
    case Some(resp) => resp.result
  }

  /** `type === 'NFT'` and `subtype` is `realm` or `subrealm`. */
  predicate RealmFamily(x: StateResult) {
    x.kind == Some("NFT") && (x.subtype == Some("realm") || x.subtype == Some("subrealm"))
  }

  /** `mint_info?.reveal_location_script`. */
  function MintScript(x: StateResult): Option<string> {
    match x.mintInfo
    case None => None
    case Some(m) => m.revealLocationScript
  }

  /**
   * `location_info[0]?.script`: indexing a missing `location_info` throws,
   * while an empty list or a null first entry gives no script.
   */
  function OwnerScript(x: StateResult): Attempt<Option<string>> {
    match x.locationInfo
    case None => Threw
    case Some(locs) =>
      if |locs| == 0 then Returned(None)
      else
        match locs[0]
        case None => Returned(None)
        case Some(loc) => Returned(loc.script)
  }

  /** `state?.latest?.d`. */
  function LatestD(x: StateResult): Option<string> {
    match x.state
    case None => None
    case Some(st) =>
      match st.latest
      case None => None
      case Some(l) => l.d
  }

  /** `state?.latest?.d || null`. */
  function ProfileId(x: StateResult): (r: Option<string>)
    ensures r.Some? <==> Truthy(LatestD(x))
    ensures r.Some? ==> r == LatestD(x)
  {
    if Truthy(LatestD(x)) then LatestD(x) else None
  }

  /** The owner address: the owner script resolved, or a throw from either step. */
  function OwnerAddress(decode: Decoder, x: StateResult): Attempt<Option<string>> {
    match OwnerScript(x)
    case Threw => Threw
    case Returned(s) => ScriptAddress(decode, s)
  }

  /** Extraction from an accepted result; None when anything in it throws. */
  function Extract(decode: Decoder, id: string, x: StateResult): Option<RealmData> {
    match ScriptAddress(decode, MintScript(x))
    case Threw => None
    case Returned(mint) =>
      match OwnerAddress(decode, x)
      case Threw => None
      case Returned(owner) => Some(RealmData(id, x.atomicalNumber, mint, owner, ProfileId(x)))
  }

  /** The payload a reply carries, if it parsed to a truthy body. */
  function PayloadOf(reply: Reply<StatePayload>): Option<StatePayload> {
    if reply.Json? then reply.body else None
  }

  /**
   * The acceptance condition, stated over the reply: a truthy payload with the
   * success flag set, a realm-family result, and both addresses derivable
   * without a throw (the owner one needing `location_info` to be present).
   */
  predicate Accepts(decode: Decoder, reply: Reply<StatePayload>) {
    var p := PayloadOf(reply);
    && p.Some?
    && p.value.success
    && ResultOf(p.value).Some?
    && RealmFamily(ResultOf(p.value).value)
    && ScriptAddress(decode, MintScript(ResultOf(p.value).value)).Returned?
    && ResultOf(p.value).value.locationInfo.Some?
    && OwnerAddress(decode, ResultOf(p.value).value).Returned?
  }

  /** `getSubrealm`: `getState` answers the query for `id`. */
  function GetSubrealm(getState: string -> Reply<StatePayload>, decode: Decoder, id: string): (r: Option<RealmData>)
    ensures r.Some? <==> Accepts(decode, getState(id))
    ensures r.Some? ==> r.value.id == id
  {
    match getState(id)
    case Json(Some(p)) =>
      if !p.success then None
      else
        (match ResultOf(p)
         case Some(x) => if RealmFamily(x) then Extract(decode, id, x) else None
         case None => None)
    case _ => None
  }

  /** A record is produced exactly when the reply is accepted. */
  lemma GetSubrealmAcceptsExactly(getState: string -> Reply<StatePayload>, decode: Decoder, id: string)
    ensures GetSubrealm(getState, decode, id).Some? <==> Accepts(decode, getState(id))
  {
  }

  /**
   * A produced record carries the requested id, the atomical number, the two
   * derived addresses, and a profile id that is null whenever
   * `state.latest.d` is falsy.
   */
  lemma AcceptedRecordFields(getState: string -> Reply<StatePayload>, decode: Decoder, id: string)
    requires GetSubrealm(getState, decode, id).Some?
    ensures var r := GetSubrealm(getState, decode, id).value;
            var x := ResultOf(getState(id).body.value).value;
            && r.id == id
            && r.number == x.atomicalNumber
            && (!Truthy(LatestD(x)) ==> r.pid == None)
            && (Truthy(LatestD(x)) ==> r.pid == LatestD(x))
            && (!Truthy(MintScript(x)) ==> r.mintAddress == None)
            && (Truthy(MintScript(x)) ==> r.mintAddress == decode(Mainnet, MintScript(x).value))
            && OwnerScript(x).Returned?
            && (!Truthy(OwnerScript(x).value) ==> r.address == None)
            && (Truthy(OwnerScript(x).value) ==> r.address == decode(Mainnet, OwnerScript(x).value.value))
  {
  }

  /**
   * Everything short of an accepted realm-family result yields no record: a
   * failed or unparsable reply, a falsy body, an unset success flag, a missing
   * result, or a result of another type or subtype.
   */
  lemma OtherRepliesRejected(getState: string -> Reply<StatePayload>, decode: Decoder, id: string)
    requires
      || !getState(id).Json?
      || getState(id).body.None?
      || !getState(id).body.value.success
      || ResultOf(getState(id).body.value).None?
      || !RealmFamily(ResultOf(getState(id).body.value).value)
    ensures GetSubrealm(getState, decode, id) == None
  {
  }

  /**
   * A realm-family result whose mint or owner script is truthy but does not
   * decode yields no record at all, not a record with an empty address.
   */
  lemma DecodeFailureDropsRecord(getState: string -> Reply<StatePayload>, decode: Decoder, id: string, x: StateResult)
    requires getState(id).Json? && getState(id).body.Some? && getState(id).body.value.success
    requires ResultOf(getState(id).body.value) == Some(x) && RealmFamily(x)
    requires (Truthy(MintScript(x)) && decode(Mainnet, MintScript(x).value).None?)
          || (OwnerScript(x).Returned? && Truthy(OwnerScript(x).value) && decode(Mainnet, OwnerScript(x).value.value).None?)
    ensures GetSubrealm(getState, decode, id) == None
  {
  }

  /** A realm-family result without `location_info` yields no record. */
  lemma MissingLocationInfoDropsRecord(getState: string -> Reply<StatePayload>, decode: Decoder, id: string, x: StateResult)
    requires getState(id).Json? && getState(id).body.Some? && getState(id).body.value.success
    requires ResultOf(getState(id).body.value) == Some(x) && x.locationInfo.None?
    ensures GetSubrealm(getState, decode, id) == None
  {
  }
}
