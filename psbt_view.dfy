/**
 * The records the PayJoin decisions look at. A PSBT is seen through one
 * abstract view that merges what the PSBT library reports (segwit-ness of
 * inputs, script type and address of outputs, absolute fee) with what the
 * wallet node's `decodepsbt` reports (outpoints, sequence numbers, locktime,
 * PSBT version). Amounts are integer satoshis.
 */
module PsbtView {
  import opened Wrappers

  /** An input: the outpoint it spends, its nSequence, whether the library sees it as segwit, its amount. */
  datatype PsbtInput = PsbtInput(txid: string, vout: int, sequence: int, isSegwit: bool, amountSat: int)

  /**
   * An output: the address the library derives from its script (None for a
   * script without an address), its amount, and whether its script is P2WPKH.
   */
  datatype PsbtOutput = PsbtOutput(address: Option<string>, amountSat: int, isP2WPKH: bool)

  /** A PSBT. `feeSat` is the library's absolute fee, None when the library cannot compute it. */
  datatype Psbt = Psbt(
    inputs: seq<PsbtInput>,
    outputs: seq<PsbtOutput>,
    feeSat: Option<int>,
    locktime: int,
    version: int)

  /** What the address library makes of a UTXO's address text. */
  datatype AddressType = P2WPKH | OtherScript | Unparseable

  /**
   * One entry of the wallet node's `listunspent`: every field the wallet may
   * omit is optional, as in the source's `Utxo` record. `addressType` is what
   * the address library reports for `address` (meaningless when `address` is None).
   */
  datatype Utxo = Utxo(
    txid: string,
    vout: int,
    address: Option<string>,
    addressType: AddressType,
    amountSat: Option<int>,
    confs: Option<int>,
    solvable: Option<bool>)

  /**
   * An uploaded invoice. Uploading keeps an invoice only when its address,
   * amount and recipient npub are all present, so they are plain fields here.
   * `amountText` is the text the amount is written as in an RPC request.
   */
  datatype Invoice = Invoice(address: string, amountSat: int, amountText: string, recipientsNpub: string)

  /** The input spends the outpoint (txid, vout). */
  predicate Spends(i: PsbtInput, txid: string, vout: int)
  {
    i.txid == txid && i.vout == vout
  }

  /** Two inputs spend the same outpoint. */
  predicate SameOutpoint(a: PsbtInput, b: PsbtInput)
  {
    a.txid == b.txid && a.vout == b.vout
  }

  /** The sum of the inputs' amounts. */
  function InputTotal(inputs: seq<PsbtInput>): int
  {
    if inputs == [] then 0 else inputs[0].amountSat + InputTotal(inputs[1..])
  }

  /** The sum of the outputs' amounts. */
  function OutputTotal(outputs: seq<PsbtOutput>): int
  {
    if outputs == [] then 0 else outputs[0].amountSat + OutputTotal(outputs[1..])
  }
}
