/**
 * The sender's side of the PayJoin: listing the spendable UTXOs, funding and
 * publishing the original PSBT, and the ordered checks a received proposal
 * has to pass before the sender signs it and shows the signed transaction.
 */
module SendView {
  import opened Wrappers
  import opened PsbtView
  import opened WalletNode
  import opened PayjoinEnvelope

  // ---------------------------------------------------------------------------
  // Spendable UTXOs (SendView.getUtxos)
  // ---------------------------------------------------------------------------

  /** A listed UTXO is offered for paying when it has a positive confirmation count and is solvable. */
  predicate Spendable(u: Utxo)
  {
    u.confs.Some? && u.confs.value > 0 && u.solvable == Some(true)
  }

  /** The spendable UTXOs of a listing, in listing order. */
  function SpendableUtxos(listed: seq<Utxo>): (kept: seq<Utxo>)
    ensures |kept| <= |listed|
  {
    if listed == [] then []
    else (if Spendable(listed[0]) then [listed[0]] else []) + SpendableUtxos(listed[1..])
  }

  /** Filtering a concatenation filters each part and keeps them in order. */
  lemma {:induction false} SpendableUtxosAppend(a: seq<Utxo>, b: seq<Utxo>)
    ensures SpendableUtxos(a + b) == SpendableUtxos(a) + SpendableUtxos(b)
  {
    if a == [] {
      assert a + b == b;
    } else {
      var head := if Spendable(a[0]) then [a[0]] else [];
      assert (a + b)[0] == a[0];
      assert (a + b)[1..] == a[1..] + b;
      assert SpendableUtxos(a + b) == head + SpendableUtxos(a[1..] + b);
      SpendableUtxosAppend(a[1..], b);
      assert head + (SpendableUtxos(a[1..]) + SpendableUtxos(b)) == (head + SpendableUtxos(a[1..])) + SpendableUtxos(b);
    }
  }

  /** A UTXO is kept iff it was listed and is spendable. */
  lemma {:induction false} SpendableUtxosMembers(listed: seq<Utxo>, u: Utxo)
    ensures u in SpendableUtxos(listed) <==> u in listed && Spendable(u)
  {
    if listed != [] {
      assert listed == [listed[0]] + listed[1..];
      SpendableUtxosMembers(listed[1..], u);
    }
  }

  /** Some UTXO is kept iff some listed UTXO is spendable. */
  lemma SpendableUtxosNonEmpty(listed: seq<Utxo>)
    ensures SpendableUtxos(listed) != [] <==> exists i :: 0 <= i < |listed| && Spendable(listed[i])
  {
    if SpendableUtxos(listed) != [] {
      var u := SpendableUtxos(listed)[0];
      SpendableUtxosMembers(listed, u);
      var i :| 0 <= i < |listed| && listed[i] == u;
    } else {
      forall i | 0 <= i < |listed|
        ensures !Spendable(listed[i])
      {
        SpendableUtxosMembers(listed, listed[i]);
      }
    }
  }

  class SendView {
    var utxos: seq<Utxo>
    var showUtxos: bool
    var showNoUtxosMessage: bool

    constructor ()
      ensures utxos == [] && !showUtxos && !showNoUtxosMessage
    {
      utxos := [];
      showUtxos := false;
      showNoUtxosMessage := false;
    }

    /**
     * Handles the `listunspent` answer (None when it is not a list). The
     * spendable UTXOs are appended, in order, to those already shown; the
     * list is shown once a spendable UTXO was found and is never hidden again.
     */
    method GetUtxos(response: Option<seq<Utxo>>)
      modifies this
      ensures response.None? ==>
        showNoUtxosMessage && utxos == old(utxos) && showUtxos == old(showUtxos)
      ensures response.Some? ==>
        && showNoUtxosMessage == (|response.value| == 0)
        && utxos == old(utxos) + SpendableUtxos(response.value)
        && showUtxos == (old(showUtxos) || SpendableUtxos(response.value) != [])
    {
      if response.None? {
        showNoUtxosMessage := true;
        return;
      }
      var listed := response.value;
      var spendable := false;
      showNoUtxosMessage := |listed| == 0;
      for i := 0 to |listed|
        invariant utxos == old(utxos) + SpendableUtxos(listed[..i])
        invariant spendable == (SpendableUtxos(listed[..i]) != [])
        invariant showNoUtxosMessage == (|listed| == 0)
        invariant showUtxos == old(showUtxos)
      {
        var utxo := listed[i];
        assert listed[..i + 1] == listed[..i] + [utxo];
        SpendableUtxosAppend(listed[..i], [utxo]);
        if utxo.confs.Some? && utxo.confs.value > 0 && utxo.solvable.Some? && utxo.solvable.value {
          spendable := true;
          utxos := utxos + [utxo];
        }
      }
      assert listed[..|listed|] == listed;
      if spendable {
        showUtxos := true;
      }
    }
  }

  // ---------------------------------------------------------------------------
  // Funding and publishing the original PSBT (SpendableUtxosView.payInvoice)
  // ---------------------------------------------------------------------------

  /** The `walletcreatefundedpsbt` request paying the invoice from the chosen UTXO. */
  function PayInvoiceRequest(invoice: Invoice, utxo: Utxo): (req: FundedPsbtRequest)
    ensures req.inputs == [OutpointParam(utxo.txid, utxo.vout)]
    ensures req.outputs == [map[invoice.address := invoice.amountText]]
    ensures req.options.Keys == {"includeWatching", "replaceable", "add_inputs"}
    ensures forall key :: key in req.options ==> req.options[key]
    ensures !req.bip32derivs
  {
    FundedPsbtRequest(
      [OutpointParam(utxo.txid, utxo.vout)],
      [map[invoice.address := invoice.amountText]],
      map["includeWatching" := true, "replaceable" := true, "add_inputs" := true],
      false)
  }

  /** What the sender publishes: the unsigned funded original it keeps, and the envelope it encrypts. */
  datatype OriginalSent = OriginalSent(original: string, envelope: Envelope)

  /**
   * The sender's way to a published original. `fund`, `sign` and
   * `mempoolAllowed` stand for the wallet node and the signer;
   * `encrypted` says that a fresh keypair was made, the invoice's npub decoded
   * to a key, and the envelope was serialized and encrypted to it.
   */
  function SendOriginal(
    invoice: Invoice,
    utxo: Utxo,
    fund: FundedPsbtRequest -> Option<string>,
    sign: string -> SignOutput,
    mempoolAllowed: Option<string> -> Option<bool>,
    encrypted: bool): (r: Option<OriginalSent>)
    ensures r.Some? ==>
      && fund(PayInvoiceRequest(invoice, utxo)) == Some(r.value.original)
      && sign(r.value.original).psbt.Some?
      && mempoolAllowed(sign(r.value.original).rawTx) == Some(true)
      && encrypted
      && EnvelopePsbt(r.value.envelope) == sign(r.value.original).psbt
      && EnvelopeParameters(r.value.envelope) == Some(AppParameters)
      && r.value.envelope == SenderEnvelope(sign(r.value.original).psbt.value)
    ensures r.None? <==>
      || fund(PayInvoiceRequest(invoice, utxo)).None?
      || sign(fund(PayInvoiceRequest(invoice, utxo)).value).psbt.None?
      || mempoolAllowed(sign(fund(PayInvoiceRequest(invoice, utxo)).value).rawTx) != Some(true)
      || !encrypted
  {
    var funded := fund(PayInvoiceRequest(invoice, utxo));
    if funded.None? then None
    else
      var signed := sign(funded.value);
      if signed.psbt.None? || mempoolAllowed(signed.rawTx) != Some(true) || !encrypted then None
      else Some(OriginalSent(funded.value, SenderEnvelope(signed.psbt.value)))
  }

  // ---------------------------------------------------------------------------
  // The checks on a received proposal
  // ---------------------------------------------------------------------------

  /** Both absolute fees are known; the source force-unwraps them. */
  predicate FeesKnown(original: Psbt, proposal: Psbt)
  {
    original.feeSat.Some? && proposal.feeSat.Some?
  }

  predicate FeeNotDecreased(original: Psbt, proposal: Psbt)
    requires FeesKnown(original, proposal)
  {
    proposal.feeSat.value >= original.feeSat.value
  }

  /** Some proposal input spends the chosen UTXO. */
  predicate IncludesOurInput(proposal: Psbt, chosen: Utxo)
  {
    exists k :: 0 <= k < |proposal.inputs| && Spends(proposal.inputs[k], chosen.txid, chosen.vout)
  }

  /**
   * The test that flags a proposal input as another UTXO of ours, as written:
   * the wallet UTXO must differ from the chosen one in txid AND in vout.
   */
  predicate FlaggedAsOurs(ours: Utxo, chosen: Utxo, input: PsbtInput)
  {
    ours.txid != chosen.txid && ours.vout != chosen.vout && Spends(input, ours.txid, ours.vout)
  }

  predicate OtherOwnedInputAsWritten(proposal: Psbt, chosen: Utxo, wallet: seq<Utxo>)
  {
    exists k, j :: 0 <= k < |proposal.inputs| && 0 <= j < |wallet| && FlaggedAsOurs(wallet[j], chosen, proposal.inputs[k])
  }

  /**
   * The sequence-number test as written: once the original has an input,
   * every proposal input must carry the first proposal input's sequence.
   */
  predicate SequencesUniform(original: Psbt, proposal: Psbt)
  {
    |original.inputs| == 0 ||
    forall k :: 0 <= k < |proposal.inputs| ==> proposal.inputs[k].sequence == proposal.inputs[0].sequence
  }

  predicate SequenceKept(o: PsbtInput, p: PsbtInput)
  {
    SameOutpoint(o, p) ==> o.sequence == p.sequence
  }

  /** Every original input that reappears in the proposal keeps its sequence. */
  predicate SenderSequencesKept(original: Psbt, proposal: Psbt)
  {
    forall a, b :: 0 <= a < |original.inputs| && 0 <= b < |proposal.inputs| ==>
      SequenceKept(original.inputs[a], proposal.inputs[b])
  }

  predicate AllInputsSegwit(proposal: Psbt)
  {
    forall k :: 0 <= k < |proposal.inputs| ==> proposal.inputs[k].isSegwit
  }

  predicate AllOutputsP2WPKH(proposal: Psbt)
  {
    forall k :: 0 <= k < |proposal.outputs| ==> proposal.outputs[k].isP2WPKH
  }

  predicate PaysInvoice(o: PsbtOutput, invoice: Invoice)
  {
    o.address == Some(invoice.address) && o.amountSat == invoice.amountSat
  }

  /** Some proposal output pays exactly the invoice's address and amount. */
  predicate InvoiceOutputKept(proposal: Psbt, invoice: Invoice)
  {
    exists k :: 0 <= k < |proposal.outputs| && PaysInvoice(proposal.outputs[k], invoice)
  }

  /** `p` has the same amount and the same (optional) address as `o`. */
  predicate Reproduces(p: PsbtOutput, o: PsbtOutput)
  {
    p.amountSat == o.amountSat && p.address == o.address
  }

  predicate Reproduced(o: PsbtOutput, proposal: Psbt)
  {
    exists k :: 0 <= k < |proposal.outputs| && Reproduces(proposal.outputs[k], o)
  }

  /** The output test as written: only the LAST original output is looked for in the proposal. */
  predicate LastOriginalOutputReproduced(original: Psbt, proposal: Psbt)
  {
    |original.outputs| > 0 && Reproduced(original.outputs[|original.outputs| - 1], proposal)
  }

  /** Why a proposal was turned away, one reason per guard, in the order the guards run. */
  datatype Rejection =
    | FeeDecreased
    | LocktimeMismatch
    | VersionMismatch
    | OtherOwnedInput
    | OurInputMissing
    | SequencesDiffer
    | SenderSequenceChanged
    | OriginalOutputsMissing
    | InvoiceOutputAltered
    | NotSegwit

  /** The outcome of the checks: accepted for signing, rejected by a guard, or a crash on an unknown fee. */
  datatype Verdict = Accepted | Rejected(reason: Rejection) | Trapped

  /** The checks in the order the source runs them; the first that fails decides. */
  function ProposalVerdict(original: Psbt, proposal: Psbt, invoice: Invoice, chosen: Utxo, wallet: seq<Utxo>): (v: Verdict)
    ensures v.Rejected? ==> FeesKnown(original, proposal)
    ensures v == Accepted ==>
      && FeesKnown(original, proposal) && FeeNotDecreased(original, proposal)
      && IncludesOurInput(proposal, chosen) && InvoiceOutputKept(proposal, invoice)
      && AllInputsSegwit(proposal) && AllOutputsP2WPKH(proposal)
  {
    if !FeesKnown(original, proposal) then Trapped
    else if !FeeNotDecreased(original, proposal) then Rejected(FeeDecreased)
    else if proposal.locktime != original.locktime then Rejected(LocktimeMismatch)
    else if original.version != proposal.version then Rejected(VersionMismatch)
    else if OtherOwnedInputAsWritten(proposal, chosen, wallet) then Rejected(OtherOwnedInput)
    else if !IncludesOurInput(proposal, chosen) then Rejected(OurInputMissing)
    else if !SequencesUniform(original, proposal) then Rejected(SequencesDiffer)
    else if !SenderSequencesKept(original, proposal) then Rejected(SenderSequenceChanged)
    else if !LastOriginalOutputReproduced(original, proposal) then Rejected(OriginalOutputsMissing)
    else if !InvoiceOutputKept(proposal, invoice) then Rejected(InvoiceOutputAltered)
    else if !(AllInputsSegwit(proposal) && AllOutputsP2WPKH(proposal)) then Rejected(NotSegwit)
    else Accepted
  }

  /** The guards in the order they run. */
  const GuardOrder: seq<Rejection> := [
    FeeDecreased, LocktimeMismatch, VersionMismatch, OtherOwnedInput, OurInputMissing,
    SequencesDiffer, SenderSequenceChanged, OriginalOutputsMissing, InvoiceOutputAltered, NotSegwit]

  /** Whether the guard named by `g` lets the proposal through, independently of the others. */
  predicate GuardPasses(g: Rejection, original: Psbt, proposal: Psbt, invoice: Invoice, chosen: Utxo, wallet: seq<Utxo>)
    requires FeesKnown(original, proposal)
  {
    match g
    case FeeDecreased => FeeNotDecreased(original, proposal)
    case LocktimeMismatch => proposal.locktime == original.locktime
    case VersionMismatch => proposal.version == original.version
    case OtherOwnedInput => !OtherOwnedInputAsWritten(proposal, chosen, wallet)
    case OurInputMissing => IncludesOurInput(proposal, chosen)
    case SequencesDiffer => SequencesUniform(original, proposal)
    case SenderSequenceChanged => SenderSequencesKept(original, proposal)
    case OriginalOutputsMissing => LastOriginalOutputReproduced(original, proposal)
    case InvoiceOutputAltered => InvoiceOutputKept(proposal, invoice)
    case NotSegwit => AllInputsSegwit(proposal) && AllOutputsP2WPKH(proposal)
  }

  /** The verdict crashes exactly when one of the two fees is unknown. */
  lemma TrappedIffFeeUnknown(original: Psbt, proposal: Psbt, invoice: Invoice, chosen: Utxo, wallet: seq<Utxo>)
    ensures ProposalVerdict(original, proposal, invoice, chosen, wallet) == Trapped <==> !FeesKnown(original, proposal)
  {
  }

  /** A proposal is rejected for guard k exactly when guard k fails and every earlier guard passes. */
  lemma VerdictIsFirstFailingGuard(original: Psbt, proposal: Psbt, invoice: Invoice, chosen: Utxo, wallet: seq<Utxo>, k: nat)
    requires FeesKnown(original, proposal)
    requires k < |GuardOrder|
    ensures ProposalVerdict(original, proposal, invoice, chosen, wallet) == Rejected(GuardOrder[k]) <==>
      && !GuardPasses(GuardOrder[k], original, proposal, invoice, chosen, wallet)
      && forall j :: 0 <= j < k ==> GuardPasses(GuardOrder[j], original, proposal, invoice, chosen, wallet)
  {
    var v := ProposalVerdict(original, proposal, invoice, chosen, wallet);
    var pass := j requires 0 <= j < |GuardOrder| => GuardPasses(GuardOrder[j], original, proposal, invoice, chosen, wallet);
    assert pass(0) == FeeNotDecreased(original, proposal);
    assert pass(1) == (proposal.locktime == original.locktime);
    assert pass(2) == (proposal.version == original.version);
    assert pass(3) == !OtherOwnedInputAsWritten(proposal, chosen, wallet);
    assert pass(4) == IncludesOurInput(proposal, chosen);
    assert pass(5) == SequencesUniform(original, proposal);
    assert pass(6) == SenderSequencesKept(original, proposal);
    assert pass(7) == LastOriginalOutputReproduced(original, proposal);
    assert pass(8) == InvoiceOutputKept(proposal, invoice);
    assert pass(9) == (AllInputsSegwit(proposal) && AllOutputsP2WPKH(proposal));
  }

  /** A proposal is accepted exactly when both fees are known and every guard passes. */
  lemma AcceptedIffAllGuardsPass(original: Psbt, proposal: Psbt, invoice: Invoice, chosen: Utxo, wallet: seq<Utxo>)
    ensures ProposalVerdict(original, proposal, invoice, chosen, wallet) == Accepted <==>
      && FeesKnown(original, proposal)
      && forall j :: 0 <= j < |GuardOrder| ==> GuardPasses(GuardOrder[j], original, proposal, invoice, chosen, wallet)
  {
    if FeesKnown(original, proposal) {
      var pass := j requires 0 <= j < |GuardOrder| => GuardPasses(GuardOrder[j], original, proposal, invoice, chosen, wallet);
      assert pass(0) == FeeNotDecreased(original, proposal);
      assert pass(1) == (proposal.locktime == original.locktime);
      assert pass(2) == (proposal.version == original.version);
      assert pass(3) == !OtherOwnedInputAsWritten(proposal, chosen, wallet);
      assert pass(4) == IncludesOurInput(proposal, chosen);
      assert pass(5) == SequencesUniform(original, proposal);
      assert pass(6) == SenderSequencesKept(original, proposal);
      assert pass(7) == LastOriginalOutputReproduced(original, proposal);
      assert pass(8) == InvoiceOutputKept(proposal, invoice);
      assert pass(9) == (AllInputsSegwit(proposal) && AllOutputsP2WPKH(proposal));
    }
  }

  /**
   * What an accepted proposal is known to satisfy: a fee no lower than the
   * original's, equal locktime and PSBT version, our input present and no
   * flagged input of ours, consistent sequences, the invoice output and the
   * last original output present, and nothing but segwit inputs and P2WPKH
   * outputs. In particular an original without outputs is never accepted.
   */
  lemma AcceptedProposalGuarantees(original: Psbt, proposal: Psbt, invoice: Invoice, chosen: Utxo, wallet: seq<Utxo>)
    requires ProposalVerdict(original, proposal, invoice, chosen, wallet) == Accepted
    ensures FeesKnown(original, proposal) && proposal.feeSat.value >= original.feeSat.value
    ensures proposal.locktime == original.locktime && proposal.version == original.version
    ensures exists k :: 0 <= k < |proposal.inputs| && Spends(proposal.inputs[k], chosen.txid, chosen.vout)
    ensures !OtherOwnedInputAsWritten(proposal, chosen, wallet)
    ensures |original.inputs| > 0 ==>
      forall k :: 0 <= k < |proposal.inputs| ==> proposal.inputs[k].sequence == proposal.inputs[0].sequence
    ensures forall a, b :: (0 <= a < |original.inputs| && 0 <= b < |proposal.inputs| &&
      SameOutpoint(original.inputs[a], proposal.inputs[b])) ==> original.inputs[a].sequence == proposal.inputs[b].sequence
    ensures |original.outputs| > 0
    ensures exists k :: 0 <= k < |proposal.outputs| && Reproduces(proposal.outputs[k], original.outputs[|original.outputs| - 1])
    ensures exists k :: (0 <= k < |proposal.outputs| &&
      proposal.outputs[k].address == Some(invoice.address) && proposal.outputs[k].amountSat == invoice.amountSat)
    ensures forall k :: 0 <= k < |proposal.inputs| ==> proposal.inputs[k].isSegwit
    ensures forall k :: 0 <= k < |proposal.outputs| ==> proposal.outputs[k].isP2WPKH
  {
    assert SenderSequencesKept(original, proposal);
    forall a, b | 0 <= a < |original.inputs| && 0 <= b < |proposal.inputs| &&
      SameOutpoint(original.inputs[a], proposal.inputs[b])
      ensures original.inputs[a].sequence == proposal.inputs[b].sequence
    {
      assert SequenceKept(original.inputs[a], proposal.inputs[b]);
    }
  }

  /** A proposal with a strictly lower fee is rejected for its fee; a fee at least the original's never is. */
  lemma FeeMonotonicity(original: Psbt, proposal: Psbt, invoice: Invoice, chosen: Utxo, wallet: seq<Utxo>)
    requires FeesKnown(original, proposal)
    ensures proposal.feeSat.value < original.feeSat.value <==>
      ProposalVerdict(original, proposal, invoice, chosen, wallet) == Rejected(FeeDecreased)
  {
  }

  /** One input that is not segwit keeps a proposal from being accepted, whatever else holds. */
  lemma LegacyInputRejected(original: Psbt, proposal: Psbt, invoice: Invoice, chosen: Utxo, wallet: seq<Utxo>, k: nat)
    requires k < |proposal.inputs| && !proposal.inputs[k].isSegwit
    ensures ProposalVerdict(original, proposal, invoice, chosen, wallet) != Accepted
  {
  }

  /** A proposal that does not spend the chosen UTXO is never accepted. */
  lemma MissingInputRejected(original: Psbt, proposal: Psbt, invoice: Invoice, chosen: Utxo, wallet: seq<Utxo>)
    requires forall k :: 0 <= k < |proposal.inputs| ==> !Spends(proposal.inputs[k], chosen.txid, chosen.vout)
    ensures ProposalVerdict(original, proposal, invoice, chosen, wallet) != Accepted
  {
  }

  /** A proposal that pays the invoice address less than the invoice amount, and nothing else to it, is never accepted. */
  lemma ReducedInvoiceOutputRejected(original: Psbt, proposal: Psbt, invoice: Invoice, chosen: Utxo, wallet: seq<Utxo>)
    requires forall k :: 0 <= k < |proposal.outputs| && proposal.outputs[k].address == Some(invoice.address) ==>
      proposal.outputs[k].amountSat < invoice.amountSat
    ensures ProposalVerdict(original, proposal, invoice, chosen, wallet) != Accepted
  {
  }

  // ---------------------------------------------------------------------------
  // The loops that compute the guards' flags
  // ---------------------------------------------------------------------------

  /** The loop over proposal inputs (and, inside it, over our UTXOs) setting the two input flags. */
  method ScanOurInputs(proposal: Psbt, chosen: Utxo, wallet: seq<Utxo>) returns (includesOurInput: bool, additionalInputPresent: bool)
    ensures includesOurInput == IncludesOurInput(proposal, chosen)
    ensures additionalInputPresent == OtherOwnedInputAsWritten(proposal, chosen, wallet)
  {
    includesOurInput, additionalInputPresent := false, false;
    for k := 0 to |proposal.inputs|
      invariant includesOurInput == exists k' :: 0 <= k' < k && Spends(proposal.inputs[k'], chosen.txid, chosen.vout)
      invariant additionalInputPresent ==
        exists k', j :: 0 <= k' < k && 0 <= j < |wallet| && FlaggedAsOurs(wallet[j], chosen, proposal.inputs[k'])
    {
      var proposedInput := proposal.inputs[k];
      if proposedInput.txid == chosen.txid && proposedInput.vout == chosen.vout {
        includesOurInput := true;
      }
      ghost var before := additionalInputPresent;
      for j := 0 to |wallet|
        invariant additionalInputPresent == (before || exists j' :: 0 <= j' < j && FlaggedAsOurs(wallet[j'], chosen, proposedInput))
      {
        var ourUtxo := wallet[j];
        if ourUtxo.txid != chosen.txid && ourUtxo.vout != chosen.vout &&
           ourUtxo.txid == proposedInput.txid && ourUtxo.vout == proposedInput.vout {
          additionalInputPresent := true;
        }
      }
      if additionalInputPresent && !before {
        var j' :| 0 <= j' < |wallet| && FlaggedAsOurs(wallet[j'], chosen, proposedInput);
        assert FlaggedAsOurs(wallet[j'], chosen, proposal.inputs[k]);
      }
    }
  }

  /**
   * The nested loop over original and proposal inputs: `prevSeqNum` is taken
   * from the first proposal input seen and every proposal input is compared
   * with it; an original input found again must show the same sequence.
   */
  method ScanSequences(original: Psbt, proposal: Psbt) returns (sameSeqNums: bool, sendersSeqNumUnchanged: bool)
    ensures sameSeqNums == SequencesUniform(original, proposal)
    ensures sendersSeqNumUnchanged == SenderSequencesKept(original, proposal)
  {
    sendersSeqNumUnchanged, sameSeqNums := true, true;
    var prevSeqNum: Option<int> := None;
    var n := |proposal.inputs|;
    for a := 0 to |original.inputs|
      invariant prevSeqNum == if a > 0 && n > 0 then Some(proposal.inputs[0].sequence) else None
      invariant sameSeqNums == (a == 0 || forall k :: 0 <= k < n ==> proposal.inputs[k].sequence == proposal.inputs[0].sequence)
      invariant sendersSeqNumUnchanged ==
        forall a', b :: 0 <= a' < a && 0 <= b < n ==> SequenceKept(original.inputs[a'], proposal.inputs[b])
    {
      var originalInput := original.inputs[a];
      ghost var keptBefore := sendersSeqNumUnchanged;
      for b := 0 to n
        invariant prevSeqNum == if (a > 0 || b > 0) && n > 0 then Some(proposal.inputs[0].sequence) else None
        invariant sameSeqNums == forall k :: 0 <= k < (if a > 0 then n else b) ==>
          proposal.inputs[k].sequence == proposal.inputs[0].sequence
        invariant sendersSeqNumUnchanged ==
          (keptBefore && forall b' :: 0 <= b' < b ==> SequenceKept(originalInput, proposal.inputs[b']))
      {
        var proposedInput := proposal.inputs[b];
        var seqNum := proposedInput.sequence;
        match prevSeqNum {
          case Some(prev) =>
            if prev != seqNum {
              sameSeqNums := false;
            }
          case None =>
            prevSeqNum := Some(seqNum);
        }
        if originalInput.txid == proposedInput.txid && originalInput.vout == proposedInput.vout {
          if originalInput.sequence != proposedInput.sequence {
            sendersSeqNumUnchanged := false;
          }
        }
      }
    }
  }

  /** The loop over proposal inputs setting `inputsAreSegwit`. */
  method ScanInputsSegwit(proposal: Psbt) returns (inputsAreSegwit: bool)
    ensures inputsAreSegwit == AllInputsSegwit(proposal)
  {
    inputsAreSegwit := true;
    for k := 0 to |proposal.inputs|
      invariant inputsAreSegwit == forall k' :: 0 <= k' < k ==> proposal.inputs[k'].isSegwit
    {
      if !proposal.inputs[k].isSegwit {
        inputsAreSegwit := false;
      }
    }
  }

  /** The loop over proposal outputs setting `outputsAreSegwit` and `originalOutputChanged`. */
  method ScanOutputs(proposal: Psbt, invoice: Invoice) returns (outputsAreSegwit: bool, originalOutputChanged: bool)
    ensures outputsAreSegwit == AllOutputsP2WPKH(proposal)
    ensures originalOutputChanged == !InvoiceOutputKept(proposal, invoice)
  {
    outputsAreSegwit, originalOutputChanged := true, true;
    for k := 0 to |proposal.outputs|
      invariant outputsAreSegwit == forall k' :: 0 <= k' < k ==> proposal.outputs[k'].isP2WPKH
      invariant originalOutputChanged == !exists k' :: 0 <= k' < k && PaysInvoice(proposal.outputs[k'], invoice)
    {
      var proposedOutput := proposal.outputs[k];
      if !proposedOutput.isP2WPKH {
        outputsAreSegwit := false;
      }
      if proposedOutput.address == Some(invoice.address) && proposedOutput.amountSat == invoice.amountSat {
        originalOutputChanged := false;
      }
    }
  }

  /**
   * The loop over original outputs: each is looked for among the proposal's
   * outputs, but only the match found for the last one is recorded.
   */
  method ScanOriginalOutputs(original: Psbt, proposal: Psbt) returns (originalOutputsIncluded: bool)
    ensures originalOutputsIncluded == LastOriginalOutputReproduced(original, proposal)
  {
    originalOutputsIncluded := false;
    var count := |original.outputs|;
    for i := 0 to count
      invariant originalOutputsIncluded == (i == count && i > 0 && Reproduced(original.outputs[i - 1], proposal))
    {
      var originalOutput := original.outputs[i];
      var outputsMatch := false;
      for k := 0 to |proposal.outputs|
        invariant outputsMatch == exists k' :: 0 <= k' < k && Reproduces(proposal.outputs[k'], originalOutput)
      {
        var proposedOutput := proposal.outputs[k];
        if proposedOutput.amountSat == originalOutput.amountSat && proposedOutput.address == originalOutput.address {
          outputsMatch := true;
        }
      }
      if outputsMatch && i + 1 == count {
        originalOutputsIncluded := outputsMatch;
      }
    }
  }

  /** The whole check of a received proposal, guard after guard, as the source runs it. */
  method ValidateProposal(original: Psbt, proposal: Psbt, invoice: Invoice, chosen: Utxo, wallet: seq<Utxo>) returns (v: Verdict)
    ensures v == ProposalVerdict(original, proposal, invoice, chosen, wallet)
  {
    if proposal.feeSat.None? || original.feeSat.None? {
      return Trapped;
    }
    if !(proposal.feeSat.value >= original.feeSat.value) {
      return Rejected(FeeDecreased);
    }
    if proposal.locktime != original.locktime {
      return Rejected(LocktimeMismatch);
    }
    if original.version != proposal.version {
      return Rejected(VersionMismatch);
    }
    var proposedPsbtIncludesOurInput, additionalInputPresent := ScanOurInputs(proposal, chosen, wallet);
    if additionalInputPresent {
      return Rejected(OtherOwnedInput);
    }
    if !proposedPsbtIncludesOurInput {
      return Rejected(OurInputMissing);
    }
    var sameSeqNums, sendersSeqNumUnChanged := ScanSequences(original, proposal);
    if !sameSeqNums {
      return Rejected(SequencesDiffer);
    }
    if !sendersSeqNumUnChanged {
      return Rejected(SenderSequenceChanged);
    }
    var inputsAreSegwit := ScanInputsSegwit(proposal);
    var outputsAreSegwit, originalOutputChanged := ScanOutputs(proposal, invoice);
    var originalOutputsIncluded := ScanOriginalOutputs(original, proposal);
    if !originalOutputsIncluded {
      return Rejected(OriginalOutputsMissing);
    }
    if originalOutputChanged {
      return Rejected(InvoiceOutputAltered);
    }
    if !(inputsAreSegwit && outputsAreSegwit) {
      return Rejected(NotSegwit);
    }
    return Accepted;
  }

  // ---------------------------------------------------------------------------
  // The view's result fields
  // ---------------------------------------------------------------------------

  class SpendableUtxosView {
    const utxos: seq<Utxo>
    const uploadedInvoice: Option<Invoice>
    var inputs: seq<PsbtInput>
    var outputs: seq<PsbtOutput>
    /** The fee of the signed proposal in satoshis; None while the fee text is still empty. */
    var fee: Option<int>
    var signedPsbt: string
    var signedRawTx: Option<string>

    constructor (utxos: seq<Utxo>, uploadedInvoice: Option<Invoice>)
      ensures this.utxos == utxos && this.uploadedInvoice == uploadedInvoice
      ensures inputs == [] && outputs == [] && fee == None && signedPsbt == "" && signedRawTx == None
    {
      this.utxos := utxos;
      this.uploadedInvoice := uploadedInvoice;
      inputs, outputs := [], [];
      fee := None;
      signedPsbt := "";
      signedRawTx := None;
    }

    /**
     * Handles a decoded proposal for the original funded from `chosen`.
     * `signing` is the signer's answer for the proposal, `mempoolAllowed`
     * the mempool test of its raw transaction, `reparsed` the library's
     * parse of the signed PSBT. The inputs and outputs are shown once all of
     * these succeed; the fee, signed PSBT and raw transaction only when the
     * re-parsed PSBT also has a fee. A proposal that is not accepted changes nothing.
     */
    method ReceiveProposal(
      original: Psbt, proposal: Psbt, invoice: Invoice, chosen: Utxo,
      signing: SignOutput, mempoolAllowed: Option<bool>, reparsed: Option<Psbt>) returns (v: Verdict)
      requires uploadedInvoice == Some(invoice)
      modifies this
      ensures v == ProposalVerdict(original, proposal, invoice, chosen, utxos)
      ensures v != Accepted ==> unchanged(this)
      ensures var shown := v == Accepted && signing.psbt.Some? && signing.rawTx.Some?
                           && mempoolAllowed == Some(true) && reparsed.Some?;
        && inputs == (if shown then reparsed.value.inputs else old(inputs))
        && outputs == (if shown then reparsed.value.outputs else old(outputs))
        && var complete := shown && reparsed.value.feeSat.Some?;
           && fee == (if complete then reparsed.value.feeSat else old(fee))
           && signedPsbt == (if complete then signing.psbt.value else old(signedPsbt))
           && signedRawTx == (if complete then signing.rawTx else old(signedRawTx))
    {
      v := ValidateProposal(original, proposal, invoice, chosen, utxos);
      if v != Accepted {
        return;
      }
      if signing.rawTx.None? || signing.psbt.None? {
        return;
      }
      if mempoolAllowed != Some(true) {
        return;
      }
      if reparsed.None? {
        return;
      }
      var signed := reparsed.value;
      inputs := signed.inputs;
      outputs := signed.outputs;
      if signed.feeSat.None? {
        return;
      }
      fee := signed.feeSat;
      signedPsbt := signing.psbt.value;
      signedRawTx := signing.rawTx;
    }
  }

  // ---------------------------------------------------------------------------
  // Two quirks of the checks, and the checks they evidently meant
  // ---------------------------------------------------------------------------

  /** The wallet UTXO `ours` is a UTXO other than the chosen one, and `input` spends it. */
  predicate SpendsOtherOfOurs(ours: Utxo, chosen: Utxo, input: PsbtInput)
  {
    (ours.txid != chosen.txid || ours.vout != chosen.vout) && Spends(input, ours.txid, ours.vout)
  }

  /** Some proposal input spends a wallet UTXO other than the chosen one. */
  predicate OtherOwnedInputCorrected(proposal: Psbt, chosen: Utxo, wallet: seq<Utxo>)
  {
    exists k, j :: 0 <= k < |proposal.inputs| && 0 <= j < |wallet| && SpendsOtherOfOurs(wallet[j], chosen, proposal.inputs[k])
  }

  /** Every original output reappears in the proposal. */
  predicate AllOriginalOutputsReproduced(original: Psbt, proposal: Psbt)
  {
    |original.outputs| > 0 && forall i :: 0 <= i < |original.outputs| ==> Reproduced(original.outputs[i], proposal)
  }

  /** The checks with the two tests corrected, in the same order. */
  function CorrectedProposalVerdict(original: Psbt, proposal: Psbt, invoice: Invoice, chosen: Utxo, wallet: seq<Utxo>): Verdict
  {
    if !FeesKnown(original, proposal) then Trapped
    else if !FeeNotDecreased(original, proposal) then Rejected(FeeDecreased)
    else if proposal.locktime != original.locktime then Rejected(LocktimeMismatch)
    else if original.version != proposal.version then Rejected(VersionMismatch)
    else if OtherOwnedInputCorrected(proposal, chosen, wallet) then Rejected(OtherOwnedInput)
    else if !IncludesOurInput(proposal, chosen) then Rejected(OurInputMissing)
    else if !SequencesUniform(original, proposal) then Rejected(SequencesDiffer)
    else if !SenderSequencesKept(original, proposal) then Rejected(SenderSequenceChanged)
    else if !AllOriginalOutputsReproduced(original, proposal) then Rejected(OriginalOutputsMissing)
    else if !InvoiceOutputKept(proposal, invoice) then Rejected(InvoiceOutputAltered)
    else if !(AllInputsSegwit(proposal) && AllOutputsP2WPKH(proposal)) then Rejected(NotSegwit)
    else Accepted
  }

  /**
   * As written, a proposal may spend a second output of the chosen UTXO's
   * own transaction that the wallet also owns: that UTXO differs from the
   * chosen one in vout only, so it is not flagged, and the proposal passes.
   */
  lemma SiblingOutpointNotFlagged()
    ensures var chosen := Utxo("t", 0, None, P2WPKH, None, Some(1), Some(true));
            var sibling := Utxo("t", 1, None, P2WPKH, None, Some(1), Some(true));
            var original := Psbt([PsbtInput("t", 0, 5, true, 100)], [PsbtOutput(Some("r"), 50, true)], Some(10), 0, 0);
            var proposal := Psbt([PsbtInput("t", 0, 5, true, 100), PsbtInput("t", 1, 5, true, 100)],
                                 [PsbtOutput(Some("r"), 50, true)], Some(10), 0, 0);
            var invoice := Invoice("r", 50, "0.0000005", "npub");
            && ProposalVerdict(original, proposal, invoice, chosen, [chosen, sibling]) == Accepted
            && CorrectedProposalVerdict(original, proposal, invoice, chosen, [chosen, sibling]) == Rejected(OtherOwnedInput)
  {
    var chosen := Utxo("t", 0, None, P2WPKH, None, Some(1), Some(true));
    var sibling := Utxo("t", 1, None, P2WPKH, None, Some(1), Some(true));
    var original := Psbt([PsbtInput("t", 0, 5, true, 100)], [PsbtOutput(Some("r"), 50, true)], Some(10), 0, 0);
    var proposal := Psbt([PsbtInput("t", 0, 5, true, 100), PsbtInput("t", 1, 5, true, 100)],
                         [PsbtOutput(Some("r"), 50, true)], Some(10), 0, 0);
    var invoice := Invoice("r", 50, "0.0000005", "npub");
    var wallet := [chosen, sibling];
    assert Spends(proposal.inputs[0], chosen.txid, chosen.vout);
    assert SpendsOtherOfOurs(wallet[1], chosen, proposal.inputs[1]);
    assert Reproduces(proposal.outputs[0], original.outputs[0]);
    assert PaysInvoice(proposal.outputs[0], invoice);
  }

  /**
   * As written, only the last original output is looked for: an original
   * paying (a, 30) then (r, 50) passes against a proposal that pays (a, 20)
   * and (r, 50); the corrected checks turn it away.
   */
  lemma EarlierOriginalOutputNotChecked()
    ensures var chosen := Utxo("t", 0, None, P2WPKH, None, Some(1), Some(true));
            var original := Psbt([PsbtInput("t", 0, 5, true, 100)],
                                 [PsbtOutput(Some("a"), 30, true), PsbtOutput(Some("r"), 50, true)], Some(10), 0, 0);
            var proposal := Psbt([PsbtInput("t", 0, 5, true, 100)],
                                 [PsbtOutput(Some("a"), 20, true), PsbtOutput(Some("r"), 50, true)], Some(10), 0, 0);
            var invoice := Invoice("r", 50, "0.0000005", "npub");
            && ProposalVerdict(original, proposal, invoice, chosen, [chosen]) == Accepted
            && CorrectedProposalVerdict(original, proposal, invoice, chosen, [chosen]) == Rejected(OriginalOutputsMissing)
  {
    var chosen := Utxo("t", 0, None, P2WPKH, None, Some(1), Some(true));
    var original := Psbt([PsbtInput("t", 0, 5, true, 100)],
                         [PsbtOutput(Some("a"), 30, true), PsbtOutput(Some("r"), 50, true)], Some(10), 0, 0);
    var proposal := Psbt([PsbtInput("t", 0, 5, true, 100)],
                         [PsbtOutput(Some("a"), 20, true), PsbtOutput(Some("r"), 50, true)], Some(10), 0, 0);
    var invoice := Invoice("r", 50, "0.0000005", "npub");
    assert Spends(proposal.inputs[0], chosen.txid, chosen.vout);
    assert Reproduces(proposal.outputs[1], original.outputs[1]);
    assert PaysInvoice(proposal.outputs[1], invoice);
    assert !Reproduced(original.outputs[0], proposal);
  }

  /**
   * The corrected checks give what output substitution being disabled and
   * the no-foreign-input rule promise: every original output is present with
   * its address and amount, and no input spends a wallet UTXO other than the
   * chosen one. They are also stricter than the checks as written.
   */
  lemma CorrectedVerdictSafe(original: Psbt, proposal: Psbt, invoice: Invoice, chosen: Utxo, wallet: seq<Utxo>)
    requires CorrectedProposalVerdict(original, proposal, invoice, chosen, wallet) == Accepted
    ensures forall i :: 0 <= i < |original.outputs| ==>
      exists k :: 0 <= k < |proposal.outputs| && Reproduces(proposal.outputs[k], original.outputs[i])
    ensures forall k, j :: 0 <= k < |proposal.inputs| && 0 <= j < |wallet| && Spends(proposal.inputs[k], wallet[j].txid, wallet[j].vout) ==>
      wallet[j].txid == chosen.txid && wallet[j].vout == chosen.vout
    ensures ProposalVerdict(original, proposal, invoice, chosen, wallet) == Accepted
  {
    forall k, j | 0 <= k < |proposal.inputs| && 0 <= j < |wallet| && Spends(proposal.inputs[k], wallet[j].txid, wallet[j].vout)
      ensures wallet[j].txid == chosen.txid && wallet[j].vout == chosen.vout
    {
      assert !SpendsOtherOfOurs(wallet[j], chosen, proposal.inputs[k]);
    }
    assert Reproduced(original.outputs[|original.outputs| - 1], proposal);
  }
}
