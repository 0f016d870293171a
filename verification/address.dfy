/** Address derivation from a hex-encoded output script (`scriptAddress`). */
module Address {
  import opened Wrappers

  /** Outcome of a call that may throw. */
  datatype Attempt<+T> = Returned(value: T) | Threw

  /** The parameters of the one network profile addresses are encoded for. */
  datatype Network = Network(bech32: string, pubKeyHash: nat, scriptHash: nat, wif: nat)

  const Mainnet: Network := Network("bc", 0x00, 0x05, 0x80)

  /**
   * Hex decoding, output-script parsing and address encoding for a network,
   * taken together as one foreign routine: None when any of them throws.
   */
  type Decoder = (Network, string) -> Option<string>

  /**
   * `scriptAddress`: a falsy script gives no address without consulting the
   * decoder; any other script is decoded for mainnet, and a decoding failure
   * propagates as a throw.
   */
  function ScriptAddress(decode: Decoder, hexScript: Option<string>): (r: Attempt<Option<string>>)
    ensures !Truthy(hexScript) ==> r == Returned(None)
    ensures Truthy(hexScript) ==> (r.Threw? <==> decode(Mainnet, hexScript.value).None?)
    ensures Truthy(hexScript) && r.Returned? ==> r.value.Some? && r.value == decode(Mainnet, hexScript.value)
  {
    if !Truthy(hexScript) then Returned(None)
    else
      match decode(Mainnet, hexScript.value)
      case None => Threw
      case Some(a) => Returned(Some(a))
  }
}
