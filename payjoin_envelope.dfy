/**
 * The JSON envelope a PSBT travels in over the relay: a dictionary holding
 * the base64 PSBT and the BIP 78 `parameters` object. Both views build one;
 * both read incoming ones through the same accessor, which looks the PSBT up
 * under the key "psbt".
 */
module PayjoinEnvelope {
  import opened Wrappers

  /** The BIP 78 optional parameters the app always sends. */
  datatype Parameters = Parameters(
    version: int,
    maxAdditionalFeeContribution: int,
    additionalFeeOutputIndex: int,
    minFeeRate: int,
    disableOutputSubstitution: bool)

  /** The values the envelope's top-level keys map to. */
  datatype Value = Text(text: string) | Params(params: Parameters)

  type Envelope = map<string, Value>

  const PsbtKey: string := "psbt"
  const ParametersKey: string := "parameters"

  /** The parameter values both views write. */
  const AppParameters: Parameters := Parameters(1, 1000, 0, 10, true)

  /** The PSBT an incoming envelope carries, as the envelope reader finds it under the key "psbt". */
  function EnvelopePsbt(e: Envelope): (r: Option<string>)
    ensures r.Some? <==> PsbtKey in e && e[PsbtKey].Text?
  {
    if PsbtKey in e && e[PsbtKey].Text? then Some(e[PsbtKey].text) else None
  }

  /** The parameters object of an envelope, if it has one. */
  function EnvelopeParameters(e: Envelope): (r: Option<Parameters>)
    ensures r.Some? <==> ParametersKey in e && e[ParametersKey].Params?
  {
    if ParametersKey in e && e[ParametersKey].Params? then Some(e[ParametersKey].params) else None
  }

  /** The sender's envelope around its signed original PSBT. */
  function SenderEnvelope(signedPsbt: string): (e: Envelope)
    ensures e.Keys == {PsbtKey, ParametersKey}
    ensures e[PsbtKey] == Text(signedPsbt) && e[ParametersKey] == Params(AppParameters)
  {
    map[PsbtKey := Text(signedPsbt), ParametersKey := Params(AppParameters)]
  }

  /** The receiver's envelope around its signed proposal, as written: the PSBT sits under the key "psbt:". */
  function ReceiverEnvelope(signedProposal: string): (e: Envelope)
    ensures e.Keys == {"psbt:", ParametersKey}
    ensures e["psbt:"] == Text(signedProposal) && e[ParametersKey] == Params(AppParameters)
  {
    map["psbt:" := Text(signedProposal), ParametersKey := Params(AppParameters)]
  }

  /** The receiver's envelope with the key the reader looks up. */
  function ReceiverEnvelopeCorrected(signedProposal: string): Envelope
  {
    map[PsbtKey := Text(signedProposal), ParametersKey := Params(AppParameters)]
  }

  /** The receiver reads back exactly the PSBT the sender put in its envelope, with the app's parameters. */
  lemma SenderEnvelopeRoundTrip(signedPsbt: string)
    ensures EnvelopePsbt(SenderEnvelope(signedPsbt)) == Some(signedPsbt)
    ensures EnvelopeParameters(SenderEnvelope(signedPsbt)) == Some(AppParameters)
    ensures SenderEnvelope(signedPsbt).Keys == {"psbt", "parameters"}
  {
  }

  /**
   * As written, the receiver's envelope carries the proposal under "psbt:"
   * and has no "psbt" key, so the reader finds no PSBT in it, whatever
   * proposal it carries; its parameters still read back.
   */
  lemma ReceiverEnvelopeUnreadable(signedProposal: string)
    ensures EnvelopePsbt(ReceiverEnvelope(signedProposal)) == None
    ensures ReceiverEnvelope(signedProposal).Keys == {"psbt:", "parameters"}
    ensures ReceiverEnvelope(signedProposal)["psbt:"] == Text(signedProposal)
    ensures EnvelopeParameters(ReceiverEnvelope(signedProposal)) == Some(AppParameters)
  {
    assert PsbtKey != "psbt:";
  }

  /** The corrected receiver envelope reads back as the proposal it carries. */
  lemma ReceiverEnvelopeCorrectedRoundTrip(signedProposal: string)
    ensures EnvelopePsbt(ReceiverEnvelopeCorrected(signedProposal)) == Some(signedProposal)
    ensures ReceiverEnvelopeCorrected(signedProposal) == SenderEnvelope(signedProposal)
  {
  }

  /**
   * Both envelopes carry the same parameters: version 1, a maximum additional
   * fee contribution of 1000, fee output index 0, minimum fee rate 10, and
   * output substitution disabled.
   */
  lemma EnvelopesShareParameters(signedPsbt: string, signedProposal: string)
    ensures EnvelopeParameters(SenderEnvelope(signedPsbt)) == EnvelopeParameters(ReceiverEnvelope(signedProposal))
    ensures var p := EnvelopeParameters(ReceiverEnvelope(signedProposal)).value;
      p.version == 1 && p.maxAdditionalFeeContribution == 1000 && p.additionalFeeOutputIndex == 0
      && p.minFeeRate == 10 && p.disableOutputSubstitution
  {
  }
}
