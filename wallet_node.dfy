/**
 * The shapes of the requests the two views send to the wallet node. Only the
 * parameters are modelled; the node's answers come back into the model as
 * oracle values.
 */
module WalletNode {
  import opened Wrappers

  /** One entry of the `inputs` array of `walletcreatefundedpsbt`. */
  datatype OutpointParam = OutpointParam(txid: string, vout: int)

  /**
   * The parameter dictionary of `walletcreatefundedpsbt`: `inputs`, `outputs`
   * (each output an address-to-amount object), `options` and `bip32derivs`.
   */
  datatype FundedPsbtRequest = FundedPsbtRequest(
    inputs: seq<OutpointParam>,
    outputs: seq<map<string, string>>,
    options: map<string, bool>,
    bip32derivs: bool)

  /** What the signer hands back: a signed PSBT and a raw transaction, each possibly missing. */
  datatype SignOutput = SignOutput(psbt: Option<string>, rawTx: Option<string>)

  /** A `finalizepsbt` answer: its `complete` flag and its `hex` field. */
  datatype Finalized = Finalized(complete: bool, hex: Option<string>)
}
