/**
 * The receiver's side of the PayJoin: the invoice it shows, the screening of
 * an original PSBT that arrives over the relay, the UTXOs it offers for its
 * own contribution, the selection of one of them, and the request, join and
 * envelope that make up its proposal.
 */
module ReceiveView {
  import opened Wrappers
  import opened PsbtView
  import opened WalletNode
  import opened PayjoinEnvelope

  // ---------------------------------------------------------------------------
  // The invoice URI
  // ---------------------------------------------------------------------------

  /**
   * The BIP 21 style URI with the payjoin-over-nostr parameter: the scheme,
   * the address, then the amount and the npub, each behind its separator.
   */
  function InvoiceUri(address: string, amount: string, npub: string): (uri: string)
    ensures "bitcoin:" <= uri
    ensures |uri| == |"bitcoin:?amount=&pj=nostr:"| + |address| + |amount| + |npub|
    ensures uri[8..8 + |address|] == address
  {
    "bitcoin:" + (address + ("?amount=" + (amount + ("&pj=nostr:" + npub))))
  }

  /**
   * The "Payjoin Invoice" section and the URI it shows. `amountValue` is what
   * parsing the amount text as a double gives; the section exists only when
   * that value is positive and the address field is not empty.
   */
  function InvoiceSection(amountValue: Option<real>, address: string, amount: string, npub: string): (uri: Option<string>)
    ensures uri.Some? <==> amountValue.Some? && amountValue.value > 0.0 && address != ""
    ensures uri.Some? ==> uri.value == InvoiceUri(address, amount, npub)
  {
    if amountValue.Some? && amountValue.value > 0.0 && address != "" then Some(InvoiceUri(address, amount, npub))
    else None
  }

  /** The three fields a reader takes out of an invoice URI. */
  datatype InvoiceFields = InvoiceFields(address: string, amount: string, npub: string)

  /** The position of the first `c` in `s`, or |s| when there is none. */
  function IndexOf(s: string, c: char): (i: nat)
    ensures i <= |s|
    ensures i < |s| ==> s[i] == c
    ensures forall k :: 0 <= k < i ==> s[k] != c
  {
    if s == [] then 0
    else if s[0] == c then 0
    else 1 + IndexOf(s[1..], c)
  }

  /**
   * A reading of the invoice format: the scheme, the address up to the first
   * '?', the amount after "?amount=" up to the next '&', and the npub after
   * "&pj=nostr:".
   */
  function ParseInvoiceUri(uri: string): Option<InvoiceFields>
  {
    if !("bitcoin:" <= uri) then None
    else
      var rest := uri[8..];
      var q := IndexOf(rest, '?');
      var afterAddress := rest[q..];
      if !("?amount=" <= afterAddress) then None
      else
        var tail := afterAddress[8..];
        var a := IndexOf(tail, '&');
        var afterAmount := tail[a..];
        if !("&pj=nostr:" <= afterAmount) then None
        else Some(InvoiceFields(rest[..q], tail[..a], afterAmount[10..]))
  }

  /** The two halves of a concatenation. */
  lemma ConcatSplit(p: string, s: string)
    ensures p <= p + s
    ensures (p + s)[..|p|] == p && (p + s)[|p|..] == s
  {
  }

  /** A sequence with a prefix is that prefix followed by the remainder. */
  lemma PrefixRest(p: string, s: string)
    requires p <= s
    ensures s == p + s[|p|..]
  {
  }

  /** The first `c` in x + y is the head of y when x has none. */
  lemma IndexOfConcat(x: string, y: string, c: char)
    requires c !in x && |y| > 0 && y[0] == c
    ensures IndexOf(x + y, c) == |x|
  {
    assert (x + y)[|x|] == c;
    forall k | 0 <= k < |x|
      ensures (x + y)[k] != c
    {
      assert (x + y)[k] == x[k];
    }
  }

  /** An invoice URI reads back as the fields it was made from, when the address has no '?' and the amount no '&'. */
  lemma InvoiceUriRoundTrip(address: string, amount: string, npub: string)
    requires '?' !in address && '&' !in amount
    ensures ParseInvoiceUri(InvoiceUri(address, amount, npub)) == Some(InvoiceFields(address, amount, npub))
  {
    var t2 := "&pj=nostr:" + npub;
    var tail := amount + t2;
    var t1 := "?amount=" + tail;
    var rest := address + t1;
    ConcatSplit("bitcoin:", rest);
    IndexOfConcat(address, t1, '?');
    ConcatSplit(address, t1);
    ConcatSplit("?amount=", tail);
    IndexOfConcat(amount, t2, '&');
    ConcatSplit(amount, t2);
    ConcatSplit("&pj=nostr:", npub);
  }

  /** Putting back the separators the reading strips gives the URI it read. */
  lemma ReassembleInvoiceUri(uri: string, rest: string, q: nat, afterAddress: string, tail: string, a: nat, afterAmount: string)
    requires "bitcoin:" <= uri && rest == uri[8..]
    requires q <= |rest| && afterAddress == rest[q..]
    requires "?amount=" <= afterAddress && tail == afterAddress[8..]
    requires a <= |tail| && afterAmount == tail[a..]
    requires "&pj=nostr:" <= afterAmount
    ensures InvoiceUri(rest[..q], tail[..a], afterAmount[10..]) == uri
  {
    PrefixRest("&pj=nostr:", afterAmount);
    assert tail == tail[..a] + afterAmount;
    PrefixRest("?amount=", afterAddress);
    assert rest == rest[..q] + afterAddress;
    PrefixRest("bitcoin:", uri);
  }

  /**
   * The URI the invoice section shows reads back as the address, amount and
   * npub it was made from, when the address field holds no '?' and the amount
   * field no '&'.
   */
  lemma InvoiceSectionReadsBack(amountValue: Option<real>, address: string, amount: string, npub: string)
    requires '?' !in address && '&' !in amount
    ensures var uri := InvoiceSection(amountValue, address, amount, npub);
      uri.Some? ==> ParseInvoiceUri(uri.value) == Some(InvoiceFields(address, amount, npub))
  {
    InvoiceUriRoundTrip(address, amount, npub);
  }

  /** Whatever the reading accepts is an invoice URI of the fields it returns, so the reading loses nothing. */
  lemma ParsedInvoiceUriReencodes(uri: string)
    requires ParseInvoiceUri(uri).Some?
    ensures var f := ParseInvoiceUri(uri).value;
      && '?' !in f.address && '&' !in f.amount
      && InvoiceUri(f.address, f.amount, f.npub) == uri
  {
    var rest := uri[8..];
    var q := IndexOf(rest, '?');
    var afterAddress := rest[q..];
    var tail := afterAddress[8..];
    var a := IndexOf(tail, '&');
    var afterAmount := tail[a..];
    ReassembleInvoiceUri(uri, rest, q, afterAddress, tail, a, afterAmount);
    assert '?' !in rest[..q] by {
      forall k | 0 <= k < q ensures rest[..q][k] != '?' {
        assert rest[..q][k] == rest[k];
      }
    }
    assert '&' !in tail[..a] by {
      forall k | 0 <= k < a ensures tail[..a][k] != '&' {
        assert tail[..a][k] == tail[k];
      }
    }
  }

  // ---------------------------------------------------------------------------
  // Screening an incoming original PSBT (connectToNostr)
  // ---------------------------------------------------------------------------

  /** The outcome of the three checks on an original: passed, dropped, or a crash on a force-unwrap. */
  datatype Screening = Passed | Dropped | Trapped

  /** As written, the flag named "all inputs segwit" is set by ANY segwit input. */
  predicate AnyInputSegwit(psbt: Psbt)
  {
    exists k :: 0 <= k < |psbt.inputs| && psbt.inputs[k].isSegwit
  }

  /** As written, the flag named "all outputs segwit" is set by ANY P2WPKH output. */
  predicate AnyOutputP2WPKH(psbt: Psbt)
  {
    exists k :: 0 <= k < |psbt.outputs| && psbt.outputs[k].isP2WPKH
  }

  /** Some output pays the invoice address; its amount is not looked at. */
  predicate PaysAddress(psbt: Psbt, address: string)
  {
    exists k :: 0 <= k < |psbt.outputs| && psbt.outputs[k].address == Some(address)
  }

  /** Some output has no address, which the address test force-unwraps. */
  predicate HasOutputWithoutAddress(psbt: Psbt)
  {
    exists k :: 0 <= k < |psbt.outputs| && psbt.outputs[k].address.None?
  }

  /**
   * The checks on an original. `invoiceAddress` is the canonical form of the
   * receiver's address field, None when it does not parse as an address.
   */
  function ScreenOriginal(psbt: Psbt, invoiceAddress: Option<string>): (s: Screening)
    ensures s == Trapped <==> invoiceAddress.None? || HasOutputWithoutAddress(psbt)
    ensures s == Passed <==>
      && invoiceAddress.Some? && !HasOutputWithoutAddress(psbt)
      && AnyOutputP2WPKH(psbt) && AnyInputSegwit(psbt) && PaysAddress(psbt, invoiceAddress.value)
  {
    if invoiceAddress.None? || HasOutputWithoutAddress(psbt) then Trapped
    else if AnyOutputP2WPKH(psbt) && AnyInputSegwit(psbt) && PaysAddress(psbt, invoiceAddress.value) then Passed
    else Dropped
  }

  /** The two loops over the original's inputs and outputs, and the guard after them. */
  method ScreenOriginalPsbt(psbt: Psbt, invoiceAddress: Option<string>) returns (s: Screening)
    ensures s == ScreenOriginal(psbt, invoiceAddress)
  {
    if invoiceAddress.None? {
      return Trapped;
    }
    var address := invoiceAddress.value;
    var allInputsSegwit := false;
    for k := 0 to |psbt.inputs|
      invariant allInputsSegwit == exists k' :: 0 <= k' < k && psbt.inputs[k'].isSegwit
    {
      if psbt.inputs[k].isSegwit {
        allInputsSegwit := true;
      }
    }
    var allOutputsSegwit := false;
    var ourInvoiceGetsPaid := false;
    for k := 0 to |psbt.outputs|
      invariant allOutputsSegwit == exists k' :: 0 <= k' < k && psbt.outputs[k'].isP2WPKH
      invariant ourInvoiceGetsPaid == exists k' :: 0 <= k' < k && psbt.outputs[k'].address == Some(address)
      invariant forall k' :: 0 <= k' < k ==> psbt.outputs[k'].address.Some?
    {
      var output := psbt.outputs[k];
      if output.isP2WPKH {
        allOutputsSegwit := true;
      }
      if output.address.None? {
        return Trapped;
      }
      if output.address.value == address {
        ourInvoiceGetsPaid := true;
      }
    }
    if !(allOutputsSegwit && allInputsSegwit && ourInvoiceGetsPaid) {
      return Dropped;
    }
    return Passed;
  }

  /** `finalizepsbt` reported a complete transaction with its hex, and the mempool test allowed it. */
  predicate Broadcastable(finalized: Option<Finalized>, mempoolAllowed: Option<bool>)
  {
    finalized.Some? && finalized.value.complete && finalized.value.hex.Some? && mempoolAllowed == Some(true)
  }

  // ---------------------------------------------------------------------------
  // The receiver's candidate UTXOs
  // ---------------------------------------------------------------------------

  /** Confirmed and solvable, the two tests before the address is looked at. */
  predicate ConfirmedSolvable(u: Utxo)
  {
    u.confs.Some? && u.confs.value > 0 && u.solvable == Some(true)
  }

  /** A UTXO the receiver may add: confirmed, solvable, with a P2WPKH address. */
  predicate Candidate(u: Utxo)
  {
    ConfirmedSolvable(u) && u.address.Some? && u.addressType == P2WPKH
  }

  /** A confirmed, solvable UTXO whose address does not parse crashes the scan (a force-unwrap of a failed parse). */
  predicate TrapsScan(u: Utxo)
  {
    ConfirmedSolvable(u) && u.address.Some? && u.addressType == Unparseable
  }

  /** The candidates found before the scan ends, and whether it ended in a crash. */
  datatype CandidateScan = CandidateScan(kept: seq<Utxo>, trapped: bool)

  function ScanCandidates(listed: seq<Utxo>): (r: CandidateScan)
    ensures |r.kept| <= |listed|
  {
    if listed == [] then CandidateScan([], false)
    else if TrapsScan(listed[0]) then CandidateScan([], true)
    else
      var rest := ScanCandidates(listed[1..]);
      CandidateScan((if Candidate(listed[0]) then [listed[0]] else []) + rest.kept, rest.trapped)
  }

  /** Scanning a concatenation: the second part is scanned only when the first does not crash. */
  lemma {:induction false} ScanCandidatesAppend(a: seq<Utxo>, b: seq<Utxo>)
    ensures ScanCandidates(a).trapped ==> ScanCandidates(a + b) == ScanCandidates(a)
    ensures !ScanCandidates(a).trapped ==>
      ScanCandidates(a + b) == CandidateScan(ScanCandidates(a).kept + ScanCandidates(b).kept, ScanCandidates(b).trapped)
  {
    if a == [] {
      assert a + b == b;
    } else {
      assert (a + b)[0] == a[0];
      assert (a + b)[1..] == a[1..] + b;
      if !TrapsScan(a[0]) {
        ScanCandidatesAppend(a[1..], b);
        var head := if Candidate(a[0]) then [a[0]] else [];
        assert head + (ScanCandidates(a[1..]).kept + ScanCandidates(b).kept)
          == (head + ScanCandidates(a[1..]).kept) + ScanCandidates(b).kept;
      }
    }
  }

  /** The scan crashes iff some listed UTXO traps it; without a crash it keeps exactly the candidates. */
  lemma {:induction false} ScanCandidatesMembers(listed: seq<Utxo>, u: Utxo)
    ensures ScanCandidates(listed).trapped <==> exists i :: 0 <= i < |listed| && TrapsScan(listed[i])
    ensures !ScanCandidates(listed).trapped ==> (u in ScanCandidates(listed).kept <==> u in listed && Candidate(u))
  {
    if listed != [] {
      assert listed == [listed[0]] + listed[1..];
      ScanCandidatesMembers(listed[1..], u);
      if !TrapsScan(listed[0]) && ScanCandidates(listed[1..]).trapped {
        var i :| 0 <= i < |listed[1..]| && TrapsScan(listed[1..][i]);
        assert TrapsScan(listed[i + 1]);
      }
      if !TrapsScan(listed[0]) && !ScanCandidates(listed[1..]).trapped {
        forall i | 0 <= i < |listed|
          ensures !TrapsScan(listed[i])
        {
          if i > 0 {
            assert listed[i] == listed[1..][i - 1];
          }
        }
      }
    }
  }

  // ---------------------------------------------------------------------------
  // The receive view's state
  // ---------------------------------------------------------------------------

  class ReceiveView {
    var utxosToPotentiallyConsume: seq<Utxo>
    var showAddOutputView: bool
    var utxoToConsume: Option<Utxo>
    var showUtxosView: bool
    var originalPsbt: Option<Psbt>

    constructor ()
      ensures utxosToPotentiallyConsume == [] && !showAddOutputView && utxoToConsume == None
      ensures !showUtxosView && originalPsbt == None
    {
      utxosToPotentiallyConsume := [];
      showAddOutputView := false;
      utxoToConsume := None;
      showUtxosView := false;
      originalPsbt := None;
    }

    /** The "Add Input" section is shown, with the stored original. */
    predicate AddInputShown()
      reads this
    {
      showUtxosView && originalPsbt.Some?
    }

    /** The "Add Output" section is shown inside it, for the UTXO to consume. */
    predicate AddOutputShown()
      reads this
    {
      AddInputShown() && showAddOutputView && utxoToConsume.Some?
    }

    /**
     * Handles a decoded original PSBT. If it passes the three checks, two
     * wallet calls go out: `finalizepsbt` followed by the mempool test, whose
     * success stores the original and shows the UTXO list; and `listunspent`,
     * whose candidates are appended to the list, whatever the first call
     * answers. Their callbacks touch disjoint fields, so they are taken in turn.
     * `listingTrapped` tells that the candidate scan crashed; the candidates
     * found before the crash stay appended.
     */
    method ReceiveOriginal(
      psbt: Psbt, invoiceAddress: Option<string>,
      finalized: Option<Finalized>, mempoolAllowed: Option<bool>,
      listing: Option<seq<Utxo>>) returns (screening: Screening, listingTrapped: bool)
      modifies this
      ensures screening == ScreenOriginal(psbt, invoiceAddress)
      ensures var accepted := screening == Passed && Broadcastable(finalized, mempoolAllowed);
        && originalPsbt == (if accepted then Some(psbt) else old(originalPsbt))
        && showUtxosView == (if accepted then true else old(showUtxosView))
      ensures var listed := screening == Passed && listing.Some?;
        && utxosToPotentiallyConsume ==
             old(utxosToPotentiallyConsume) + (if listed then ScanCandidates(listing.value).kept else [])
        && listingTrapped == (listed && ScanCandidates(listing.value).trapped)
      ensures showAddOutputView == old(showAddOutputView) && utxoToConsume == old(utxoToConsume)
    {
      listingTrapped := false;
      screening := ScreenOriginalPsbt(psbt, invoiceAddress);
      if screening != Passed {
        return;
      }
      OnFinalized(psbt, finalized, mempoolAllowed);
      if listing.Some? {
        listingTrapped := OnListUnspent(listing.value);
      }
    }

    /** The `finalizepsbt` and mempool callbacks: a broadcastable original is stored and the UTXO list shown. */
    method OnFinalized(psbt: Psbt, finalized: Option<Finalized>, mempoolAllowed: Option<bool>)
      modifies this
      ensures originalPsbt == (if Broadcastable(finalized, mempoolAllowed) then Some(psbt) else old(originalPsbt))
      ensures showUtxosView == (if Broadcastable(finalized, mempoolAllowed) then true else old(showUtxosView))
      ensures utxosToPotentiallyConsume == old(utxosToPotentiallyConsume)
      ensures showAddOutputView == old(showAddOutputView) && utxoToConsume == old(utxoToConsume)
    {
      if finalized.Some? && finalized.value.complete && finalized.value.hex.Some? {
        if mempoolAllowed.Some? && mempoolAllowed.value {
          originalPsbt := Some(psbt);
          showUtxosView := true;
        }
      }
    }

    /** The `listunspent` callback: the candidates are appended in order until the scan ends or crashes. */
    method OnListUnspent(utxos: seq<Utxo>) returns (trapped: bool)
      modifies this
      ensures utxosToPotentiallyConsume == old(utxosToPotentiallyConsume) + ScanCandidates(utxos).kept
      ensures trapped == ScanCandidates(utxos).trapped
      ensures originalPsbt == old(originalPsbt) && showUtxosView == old(showUtxosView)
      ensures showAddOutputView == old(showAddOutputView) && utxoToConsume == old(utxoToConsume)
    {
      trapped := false;
      for i := 0 to |utxos|
        invariant originalPsbt == old(originalPsbt) && showUtxosView == old(showUtxosView)
        invariant showAddOutputView == old(showAddOutputView) && utxoToConsume == old(utxoToConsume)
        invariant !ScanCandidates(utxos[..i]).trapped
        invariant utxosToPotentiallyConsume == old(utxosToPotentiallyConsume) + ScanCandidates(utxos[..i]).kept
      {
        var utxo := utxos[i];
        assert utxos[..i + 1] == utxos[..i] + [utxo];
        ScanCandidatesAppend(utxos[..i], [utxo]);
        if utxo.confs.Some? && utxo.confs.value > 0 && utxo.solvable.Some? && utxo.solvable.value {
          if utxo.address.Some? {
            if utxo.addressType == Unparseable {
              assert utxos == utxos[..i] + utxos[i..];
              ScanCandidatesAppend(utxos[..i], utxos[i..]);
              return true;
            }
            if utxo.addressType == P2WPKH {
              utxosToPotentiallyConsume := utxosToPotentiallyConsume + [utxo];
            }
          }
        }
      }
      assert utxos[..|utxos|] == utxos;
    }
  }

  /** The list of candidate UTXOs; each cell binds the view's selection state. */
  class UtxosSelectionView {
    const utxos: seq<Utxo>
    const parent: ReceiveView
    var selectedUtxo: Option<Utxo>

    constructor (utxos: seq<Utxo>, parent: ReceiveView)
      ensures this.utxos == utxos && this.parent == parent && selectedUtxo == None
    {
      this.utxos := utxos;
      this.parent := parent;
      selectedUtxo := None;
    }

    /** The cell of `u` is bold and shows a checkmark. */
    predicate IsChecked(u: Utxo)
      reads this
    {
      selectedUtxo == Some(u)
    }

    /**
     * Tapping the cell of `u`: it becomes the selected UTXO and the UTXO to
     * consume, and the "Add Output" section is switched on.
     */
    method Tap(u: Utxo)
      requires u in utxos
      modifies this, parent
      ensures selectedUtxo == Some(u)
      ensures forall v :: IsChecked(v) <==> v == u
      ensures parent.utxoToConsume == Some(u) && parent.showAddOutputView
      ensures parent.utxosToPotentiallyConsume == old(parent.utxosToPotentiallyConsume)
      ensures parent.showUtxosView == old(parent.showUtxosView) && parent.originalPsbt == old(parent.originalPsbt)
      ensures old(parent.AddInputShown()) ==> parent.AddOutputShown()
    {
      selectedUtxo := Some(u);
      parent.utxoToConsume := Some(u);
      parent.showAddOutputView := true;
    }
  }

  // ---------------------------------------------------------------------------
  // Building the proposal (AddOutputView, CreateProposalView)
  // ---------------------------------------------------------------------------

  /** The "Create Payjoin Proposal" button is offered, as written: the amount field is compared twice, the address never. */
  function CreateProposalShown(additionalOutputAddress: string, additionalOutputAmount: string): (shown: bool)
    ensures shown <==> additionalOutputAmount != ""
  {
    additionalOutputAmount != "" && additionalOutputAmount != ""
  }

  /** The button with the address required too. */
  function CreateProposalShownCorrected(additionalOutputAddress: string, additionalOutputAmount: string): (shown: bool)
    ensures shown <==> additionalOutputAddress != "" && additionalOutputAmount != ""
    ensures shown ==> CreateProposalShown(additionalOutputAddress, additionalOutputAmount)
  {
    additionalOutputAddress != "" && additionalOutputAmount != ""
  }

  /** As written, an empty address with an amount still offers the button; corrected, it does not. */
  lemma EmptyAddressOffersProposal()
    ensures CreateProposalShown("", "0.0005")
    ensures !CreateProposalShownCorrected("", "0.0005")
  {
  }

  /** The `walletcreatefundedpsbt` request for the receiver's part. */
  function ProposalFundingRequest(utxo: Utxo, additionalOutputAddress: string, additionalOutputAmount: string): (req: FundedPsbtRequest)
    ensures |req.inputs| == 1 && req.inputs[0] == OutpointParam(utxo.txid, utxo.vout)
    ensures |req.outputs| == 1 && req.outputs[0].Keys == {additionalOutputAddress}
    ensures req.outputs[0][additionalOutputAddress] == additionalOutputAmount
    ensures req.options == map["add_inputs" := true] && !req.bip32derivs
  {
    FundedPsbtRequest(
      [OutpointParam(utxo.txid, utxo.vout)],
      [map[additionalOutputAddress := additionalOutputAmount]],
      map["add_inputs" := true],
      false)
  }

  /** The `joinpsbts` list: the receiver's funded PSBT first, the original second. */
  function JoinRequest(receiversPsbt: string, original: string): (txs: seq<string>)
    ensures |txs| == 2 && txs[0] == receiversPsbt && txs[1] == original
  {
    [receiversPsbt, original]
  }

  /**
   * The receiver's way from a chosen UTXO and output to the envelope it
   * publishes. `fund`, `join` and `sign` stand for the wallet node and the
   * signer; `encrypted` says the envelope was serialized and encrypted to the
   * sender's key.
   */
  function CreateProposal(
    utxo: Utxo, original: string, additionalOutputAddress: string, additionalOutputAmount: string,
    fund: FundedPsbtRequest -> Option<string>,
    join: seq<string> -> Option<string>,
    sign: string -> SignOutput,
    encrypted: bool): (r: Option<Envelope>)
    ensures var funded := fund(ProposalFundingRequest(utxo, additionalOutputAddress, additionalOutputAmount));
      r.Some? <==>
        && funded.Some?
        && join(JoinRequest(funded.value, original)).Some?
        && sign(join(JoinRequest(funded.value, original)).value).psbt.Some?
        && encrypted
    ensures var funded := fund(ProposalFundingRequest(utxo, additionalOutputAddress, additionalOutputAmount));
      r.Some? ==> r.value == ReceiverEnvelope(sign(join(JoinRequest(funded.value, original)).value).psbt.value)
    ensures r.Some? ==> EnvelopePsbt(r.value) == None && EnvelopeParameters(r.value) == Some(AppParameters)
  {
    var funded := fund(ProposalFundingRequest(utxo, additionalOutputAddress, additionalOutputAmount));
    if funded.None? then None
    else
      var joined := join(JoinRequest(funded.value, original));
      if joined.None? then None
      else
        var signed := sign(joined.value);
        if signed.psbt.None? || !encrypted then None
        else
          ReceiverEnvelopeUnreadable(signed.psbt.value);
          Some(ReceiverEnvelope(signed.psbt.value))
  }

  // ---------------------------------------------------------------------------
  // The screening as evidently meant
  // ---------------------------------------------------------------------------

  /** Every input segwit and every output P2WPKH, with at least one of each. */
  predicate AllSegwit(psbt: Psbt)
  {
    && |psbt.inputs| > 0 && (forall k :: 0 <= k < |psbt.inputs| ==> psbt.inputs[k].isSegwit)
    && |psbt.outputs| > 0 && (forall k :: 0 <= k < |psbt.outputs| ==> psbt.outputs[k].isP2WPKH)
  }

  function ScreenOriginalCorrected(psbt: Psbt, invoiceAddress: Option<string>): Screening
  {
    if invoiceAddress.None? || HasOutputWithoutAddress(psbt) then Trapped
    else if AllSegwit(psbt) && PaysAddress(psbt, invoiceAddress.value) then Passed
    else Dropped
  }

  /**
   * As written, an original with one segwit and one legacy input, and one
   * P2WPKH and one other output, passes; corrected, it is dropped.
   */
  lemma MixedOriginalPasses()
    ensures var psbt := Psbt([PsbtInput("s", 0, 0, true, 100), PsbtInput("l", 0, 0, false, 100)],
                             [PsbtOutput(Some("r"), 50, true), PsbtOutput(Some("x"), 40, false)], Some(10), 0, 0);
            && ScreenOriginal(psbt, Some("r")) == Passed
            && ScreenOriginalCorrected(psbt, Some("r")) == Dropped
  {
    var psbt := Psbt([PsbtInput("s", 0, 0, true, 100), PsbtInput("l", 0, 0, false, 100)],
                     [PsbtOutput(Some("r"), 50, true), PsbtOutput(Some("x"), 40, false)], Some(10), 0, 0);
    assert psbt.inputs[0].isSegwit && psbt.outputs[0].isP2WPKH && psbt.outputs[0].address == Some("r");
    assert !psbt.inputs[1].isSegwit;
  }

  /** The corrected screening passes only all-segwit originals, and only ones the screening as written passes too. */
  lemma ScreenOriginalCorrectedSound(psbt: Psbt, invoiceAddress: Option<string>)
    requires ScreenOriginalCorrected(psbt, invoiceAddress) == Passed
    ensures forall k :: 0 <= k < |psbt.inputs| ==> psbt.inputs[k].isSegwit
    ensures forall k :: 0 <= k < |psbt.outputs| ==> psbt.outputs[k].isP2WPKH
    ensures ScreenOriginal(psbt, invoiceAddress) == Passed
  {
    assert psbt.inputs[0].isSegwit;
    assert psbt.outputs[0].isP2WPKH;
  }
}
