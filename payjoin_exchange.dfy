/**
 * Where the two views meet: the funding requests each side sends its wallet
 * node, and one payjoin followed from the receiver's screening of the
 * original to the sender's checks on the proposal.
 */
module PayjoinExchange {
  import opened Wrappers
  import opened PsbtView
  import opened WalletNode
  import SendView
  import ReceiveView

  /**
   * Both sides fund one chosen UTXO and one output and let the wallet add
   * inputs; only the sender also asks for watch-only inputs and a
   * replaceable transaction.
   */
  lemma FundingRequestsCompared(invoice: Invoice, senderUtxo: Utxo, receiverUtxo: Utxo, address: string, amount: string)
    ensures var s := SendView.PayInvoiceRequest(invoice, senderUtxo);
            var r := ReceiveView.ProposalFundingRequest(receiverUtxo, address, amount);
      && |s.inputs| == |r.inputs| == 1 && |s.outputs| == |r.outputs| == 1
      && r.options.Keys <= s.options.Keys
      && s.options.Keys - r.options.Keys == {"includeWatching", "replaceable"}
      && s.options["add_inputs"] && r.options["add_inputs"]
      && !s.bip32derivs && !r.bip32derivs
  {
    var s := SendView.PayInvoiceRequest(invoice, senderUtxo);
    var r := ReceiveView.ProposalFundingRequest(receiverUtxo, address, amount);
    assert "add_inputs" != "includeWatching" && "add_inputs" != "replaceable";
    assert s.options.Keys - r.options.Keys == {"includeWatching", "replaceable"};
  }

  /**
   * Output non-tampering: when the original has one output and no proposal
   * output has its address and amount, the sender's checks, as written and
   * corrected, do not accept the proposal.
   */
  lemma TamperedOutputRejected(original: Psbt, proposal: Psbt, invoice: Invoice, chosen: Utxo, wallet: seq<Utxo>)
    requires |original.outputs| == 1 && !SendView.Reproduced(original.outputs[0], proposal)
    ensures SendView.ProposalVerdict(original, proposal, invoice, chosen, wallet) != SendView.Accepted
    ensures SendView.CorrectedProposalVerdict(original, proposal, invoice, chosen, wallet) != SendView.Accepted
  {
    SendView.AcceptedIffAllGuardsPass(original, proposal, invoice, chosen, wallet);
  }

  // ---------------------------------------------------------------------------
  // One payjoin from end to end
  // ---------------------------------------------------------------------------

  /** The sender's confirmed segwit UTXO of 0.5 BTC. */
  const SenderUtxo: Utxo := Utxo("a1", 0, Some("tb1sender"), P2WPKH, Some(50_000_000), Some(3), Some(true))

  /** The invoice: 0.1 BTC to the receiver's address. */
  const ScenarioInvoice: Invoice := Invoice("tb1receiver", 10_000_000, "0.1", "npubreceiver")

  /** The receiver's confirmed segwit UTXO of 0.2 BTC. */
  const ReceiverUtxo: Utxo := Utxo("b2", 1, Some("tb1receiverutxo"), P2WPKH, Some(20_000_000), Some(6), Some(true))

  /** The sender's original: its UTXO pays the invoice, the rest returns as change, 2000 sat of fee. */
  const ScenarioOriginal: Psbt := Psbt(
    [PsbtInput("a1", 0, 0xffff_fffd, true, 50_000_000)],
    [PsbtOutput(Some("tb1receiver"), 10_000_000, true), PsbtOutput(Some("tb1senderchange"), 39_998_000, true)],
    Some(2000), 0, 2)

  /**
   * The joined proposal: the receiver's UTXO added, paying 0.05 BTC to a
   * second receiver address and the rest to the receiver's change, with the
   * original's outputs intact and 3000 sat of fee.
   */
  const ScenarioProposal: Psbt := Psbt(
    [PsbtInput("b2", 1, 0xffff_fffd, true, 20_000_000), PsbtInput("a1", 0, 0xffff_fffd, true, 50_000_000)],
    [PsbtOutput(Some("tb1receiver2"), 5_000_000, true), PsbtOutput(Some("tb1receiverchange"), 14_999_000, true),
     PsbtOutput(Some("tb1receiver"), 10_000_000, true), PsbtOutput(Some("tb1senderchange"), 39_998_000, true)],
    Some(3000), 0, 2)

  /**
   * Both transactions balance: each fee is what the inputs bring in less
   * what the outputs pay out, the inputs spend the two UTXOs for their listed
   * amounts, and the fee did not go down.
   */
  lemma ScenarioBalances()
    ensures ScenarioOriginal.feeSat == Some(InputTotal(ScenarioOriginal.inputs) - OutputTotal(ScenarioOriginal.outputs))
    ensures ScenarioProposal.feeSat == Some(InputTotal(ScenarioProposal.inputs) - OutputTotal(ScenarioProposal.outputs))
    ensures SenderUtxo.amountSat == Some(ScenarioOriginal.inputs[0].amountSat)
    ensures ReceiverUtxo.amountSat == Some(ScenarioProposal.inputs[0].amountSat)
    ensures SenderUtxo.amountSat == Some(ScenarioProposal.inputs[1].amountSat)
    ensures ScenarioProposal.feeSat.value >= ScenarioOriginal.feeSat.value
  {
    var o, p := ScenarioOriginal, ScenarioProposal;
    assert InputTotal(o.inputs) == 50_000_000 by {
      assert o.inputs[1..] == [];
    }
    assert OutputTotal(o.outputs) == 49_998_000 by {
      assert o.outputs[1..][1..] == [];
    }
    assert InputTotal(p.inputs) == 70_000_000 by {
      assert p.inputs[1..][1..] == [];
    }
    assert OutputTotal(p.outputs) == 69_997_000 by {
      var t := p.outputs[1..][1..];
      assert t[1..][1..] == [];
      assert OutputTotal(t[1..]) == 39_998_000;
      assert OutputTotal(t) == 49_998_000;
    }
  }

  /** The receiver's half, first step: the scenario's invoice URI reads back as its fields. */
  lemma ScenarioInvoiceReadsBack()
    ensures ReceiveView.ParseInvoiceUri(ReceiveView.InvoiceUri("tb1receiver", "0.1", "npubreceiver"))
            == Some(ReceiveView.InvoiceFields("tb1receiver", "0.1", "npubreceiver"))
  {
    assert '?' !in "tb1receiver" by {
      forall k | 0 <= k < |"tb1receiver"| ensures "tb1receiver"[k] != '?' {
      }
    }
    assert '&' !in "0.1";
    ReceiveView.InvoiceUriRoundTrip("tb1receiver", "0.1", "npubreceiver");
  }

  /** The receiver's half: the screening passes the original, and the receiver's UTXO is offered. */
  lemma ScenarioReceiverSide()
    ensures ReceiveView.ScreenOriginal(ScenarioOriginal, Some("tb1receiver")) == ReceiveView.Passed
    ensures ReceiveView.ScanCandidates([ReceiverUtxo]) == ReceiveView.CandidateScan([ReceiverUtxo], false)
  {
    var o := ScenarioOriginal;
    assert o.inputs[0].isSegwit && o.outputs[0].isP2WPKH && o.outputs[0].address == Some("tb1receiver");
    assert !ReceiveView.HasOutputWithoutAddress(o) by {
      assert o.outputs[0].address.Some? && o.outputs[1].address.Some?;
    }
    assert [ReceiverUtxo][1..] == [];
  }

  /** Each guard of the sender's checks, as written and corrected, lets the scenario's proposal through. */
  lemma ScenarioGuardsPass()
    ensures var o, p, c := ScenarioOriginal, ScenarioProposal, SenderUtxo;
      && SendView.FeesKnown(o, p) && SendView.FeeNotDecreased(o, p)
      && p.locktime == o.locktime && p.version == o.version
      && !SendView.OtherOwnedInputAsWritten(p, c, [c]) && !SendView.OtherOwnedInputCorrected(p, c, [c])
      && SendView.IncludesOurInput(p, c)
      && SendView.SequencesUniform(o, p) && SendView.SenderSequencesKept(o, p)
      && SendView.LastOriginalOutputReproduced(o, p) && SendView.AllOriginalOutputsReproduced(o, p)
      && SendView.InvoiceOutputKept(p, ScenarioInvoice)
      && SendView.AllInputsSegwit(p) && SendView.AllOutputsP2WPKH(p)
  {
    var o, p := ScenarioOriginal, ScenarioProposal;
    assert Spends(p.inputs[1], "a1", 0);
    assert SendView.Reproduces(p.outputs[3], o.outputs[1]);
    assert SendView.Reproduces(p.outputs[2], o.outputs[0]);
    assert SendView.PaysInvoice(p.outputs[2], ScenarioInvoice);
  }

  /**
   * The sender's half: its UTXO is spendable and its request names it, and
   * its checks, as written and corrected, accept the proposal.
   */
  lemma ScenarioSenderSide()
    ensures SendView.SpendableUtxos([SenderUtxo]) == [SenderUtxo]
    ensures SendView.PayInvoiceRequest(ScenarioInvoice, SenderUtxo).inputs == [OutpointParam("a1", 0)]
    ensures SendView.ProposalVerdict(ScenarioOriginal, ScenarioProposal, ScenarioInvoice, SenderUtxo, [SenderUtxo])
            == SendView.Accepted
    ensures SendView.CorrectedProposalVerdict(ScenarioOriginal, ScenarioProposal, ScenarioInvoice, SenderUtxo, [SenderUtxo])
            == SendView.Accepted
  {
    ScenarioGuardsPass();
  }
}
