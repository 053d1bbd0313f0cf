# Unify PayJoin decision logic in Dafny

Unify is a macOS/iOS wallet. Two people use it to build a PayJoin (BIP 78)
transaction over Nostr direct messages, each backed by their own Bitcoin Core
node. This project models the decisions the two screens take:

- **Sending** (`Unify/Views/SendView.swift`). The screen lists the spendable
  UTXOs. It funds and signs an original PSBT that pays an uploaded invoice
  from one chosen UTXO, and publishes it in a JSON envelope. When the
  receiver's proposal comes back, the screen runs its ordered checks. Only
  when all of them pass does it sign the proposal, run the mempool test and
  show the result.
- **Receiving** (`Unify/Views/ReceiveView.swift`). The screen shows a
  `bitcoin:` invoice URI. It screens an incoming original, offers its own
  confirmed P2WPKH UTXOs, and records the one the user taps. It then funds
  that UTXO with one extra output, joins it with the original, signs the
  result and publishes it as the proposal.

Modules:

| file | module | contents |
|---|---|---|
| `wrappers.dfy` | `Wrappers` | `Option` |
| `psbt_view.dfy` | `PsbtView` | the PSBT, `listunspent` entry and invoice records the views read |
| `wallet_node.dfy` | `WalletNode` | request and answer shapes of the node calls (`walletcreatefundedpsbt`, signer, `finalizepsbt`) |
| `payjoin_envelope.dfy` | `PayjoinEnvelope` | the JSON envelope (`psbt` and `parameters`) each side writes and reads |
| `send_view.dfy` | `SendView` | UTXO listing, the original's funding request, the proposal checks, the result fields, the corrected checks |
| `receive_view.dfy` | `ReceiveView` | invoice URI and a reader for it, original screening, candidate UTXOs, selection, proposal creation, the corrected screening |
| `payjoin_exchange.dfy` | `PayjoinExchange` | the two funding requests compared, output tampering, one payjoin from end to end |

How the model is built:

- **Outside calls.** Node RPCs, the signer, JSON decoding and Nostr
  encryption are parameters: an `Option` answer, or a total function for a
  call whose argument the model builds.
- **Crashes.** A force-unwrap that would crash the app is an explicit
  `Trapped` outcome.
- **Where the code mutates state.** The methods that handle callbacks update
  the fields of small classes, one for each SwiftUI view state. Each states
  the whole new state.
- **Loops.** The source's loops are `for` loops with invariants. Each is
  proved equal to a specification function, and the lemmas are proved about
  those functions.
- **Defects in the code.** In the five places listed under Findings, the
  faithful members do what the code does. A corrected definition stands
  beside each, with the evidently intended property proved about it.

Where the code does less than its own flag names, the receiver's checklist
of BIP 78 and the comments that copy it (`Pay Join/Views/ReceiveView.swift`
lines 185-210, an earlier version of the receiver screen) ask, the model
follows the code:

- **Segwit test on the original.** The flags are named `allInputsSegwit` and
  `allOutputsSegwit`, but any single segwit input or P2WPKH output sets them
  (`Unify/Views/ReceiveView.swift` lines 209-228).
- **Invoice test on the original.** The flag is named `ourInvoiceGetsPaid`,
  but it only checks that some output has the invoice's address (line 225).
  The amount is not checked.
- **Missing receiver checks.** BIP 78 and the comments at
  `Pay Join/Views/ReceiveView.swift` lines 186-187 and 207 ask the receiver
  to make sure the original's inputs were never seen before, and to reject
  or not sign inputs of its own. The code has neither check.
- **Broadcastability.** BIP 78 and the comment at
  `Pay Join/Views/ReceiveView.swift` line 185 ask a non-interactive receiver
  to check that the original is broadcastable. The code runs `finalizepsbt`
  and `testmempoolaccept` only on originals that passed the three flags
  (`Unify/Views/ReceiveView.swift` lines 234-255).

## Model

| member | source | states |
|---|---|---|
| `SendView.SpendableUtxos` | Unify/Views/SendView.swift:80-88 | the kept UTXOs are never more than the listed ones |
| `SendView.SpendableUtxosAppend` | Unify/Views/SendView.swift:80-88 | filtering a concatenation is the concatenation of the filtered parts, so listing order is kept |
| `SendView.SpendableUtxosMembers` | Unify/Views/SendView.swift:83-86 | a UTXO is kept iff it was listed with a positive confirmation count and solvable |
| `SendView.SpendableUtxosNonEmpty` | Unify/Views/SendView.swift:77-92 | something is kept iff some listed UTXO is spendable, which is when the list is shown |
| `SendView.SendView.constructor` | Unify/Views/SendView.swift:15-19 | no UTXOs, list and "no UTXOs" message hidden |
| `SendView.SendView.GetUtxos` | Unify/Views/SendView.swift:67-94 | a non-list answer only raises the "no UTXOs" message; otherwise that message shows iff the answer is empty, the spendable UTXOs are appended in order, and the list is shown iff it was shown or one was spendable |
| `SendView.PayInvoiceRequest` | Unify/Views/SendView.swift:410-426 | the funding request spends exactly the chosen outpoint, pays the invoice address its amount text, sets `includeWatching`, `replaceable` and `add_inputs` and no other option, and asks for no BIP 32 derivations |
| `SendView.SendOriginal` | Unify/Views/SendView.swift:427-497 | an original is published iff funding, signing, the mempool test and encryption all succeed; the envelope is then exactly the sender's envelope around the signed PSBT, so it carries that PSBT under `psbt` and the app's parameters |
| `SendView.TrappedIffFeeUnknown` | Unify/Views/SendView.swift:536-537 | the proposal checks crash exactly when the proposal's or the original's fee is unknown |
| `SendView.VerdictIsFirstFailingGuard` | Unify/Views/SendView.swift:539-691 | with both fees known, the proposal is rejected for the k-th guard exactly when that guard fails and all guards before it pass |
| `SendView.AcceptedIffAllGuardsPass` | Unify/Views/SendView.swift:536-691 | a proposal is accepted exactly when both fees are known and all ten guards pass |
| `SendView.AcceptedProposalGuarantees` | Unify/Views/SendView.swift:536-691 | an accepted proposal pays at least the original's fee, keeps locktime and version, spends the chosen UTXO and no flagged UTXO of ours, has uniform sequences, keeps every reappearing original sequence, keeps the last original output and the invoice output, and is all segwit |
| `SendView.FeeMonotonicity` | Unify/Views/SendView.swift:536-542 | with known fees, a strictly lower proposal fee is exactly the case of a fee rejection |
| `SendView.LegacyInputRejected` | Unify/Views/SendView.swift:639-691 | any non-segwit proposal input prevents acceptance |
| `SendView.MissingInputRejected` | Unify/Views/SendView.swift:574-600 | a proposal that does not spend the chosen outpoint is never accepted |
| `SendView.ReducedInvoiceOutputRejected` | Unify/Views/SendView.swift:647-686 | a proposal paying the invoice address only less than the invoice amount is never accepted |
| `SendView.ScanOurInputs` | Unify/Views/SendView.swift:571-590 | the nested loop sets "includes our input" iff some input spends the chosen outpoint, and "additional input" iff some input spends a wallet UTXO differing from the chosen one in both txid and vout |
| `SendView.ScanSequences` | Unify/Views/SendView.swift:603-627 | the nested loop finds the sequences uniform iff the original has no input or all proposal inputs share the first one's sequence, and the sender's sequences unchanged iff every original input found again keeps its sequence |
| `SendView.ScanInputsSegwit` | Unify/Views/SendView.swift:639-645 | the flag holds iff every proposal input is segwit |
| `SendView.ScanOutputs` | Unify/Views/SendView.swift:647-659 | one flag holds iff every output is P2WPKH, the other iff no output pays exactly the invoice's address and amount |
| `SendView.ScanOriginalOutputs` | Unify/Views/SendView.swift:661-676 | the flag holds iff the original has outputs and its last one is reproduced, same address and amount, by some proposal output |
| `SendView.ProposalVerdict` | Unify/Views/SendView.swift:536-691 | the checks' verdict: a rejection only once both fees are known; an accepted proposal has both fees known, a fee not lower than the original's, the chosen input, the invoice output, and only segwit inputs and P2WPKH outputs |
| `SendView.ValidateProposal` | Unify/Views/SendView.swift:536-691 | the guard sequence computes the verdict function, guard by guard in source order |
| `SendView.SpendableUtxosView.constructor` | Unify/Views/SendView.swift:232-243 | result fields empty, UTXOs and invoice as given |
| `SendView.SpendableUtxosView.ReceiveProposal` | Unify/Views/SendView.swift:532-725 | called with the view's own uploaded invoice; the verdict is that of the checks; a proposal not accepted changes nothing; inputs and outputs are shown once signing, the mempool test and the re-parse succeed; fee, signed PSBT and raw transaction only when the re-parsed PSBT also has a fee |
| `SendView.SiblingOutpointNotFlagged` | Unify/Views/SendView.swift:579-590 | a proposal spending another output of the chosen UTXO's own transaction is accepted as written and rejected by the corrected check |
| `SendView.EarlierOriginalOutputNotChecked` | Unify/Views/SendView.swift:661-676 | a proposal that lowers an original output other than the last is accepted as written and rejected by the corrected check |
| `SendView.CorrectedVerdictSafe` | Unify/Views/SendView.swift:571-691 | a proposal the corrected check accepts reproduces every original output, spends no wallet UTXO but the chosen one, and is accepted as written too |
| `PayjoinEnvelope.EnvelopePsbt` | Unify/Views/SendView.swift:526-530 | the reader finds a PSBT iff the envelope has text under `psbt` |
| `PayjoinEnvelope.EnvelopeParameters` | Unify/Views/SendView.swift:460-469 | the reader finds parameters iff the envelope has them under `parameters` |
| `PayjoinEnvelope.SenderEnvelope` | Unify/Views/SendView.swift:460-469 | the sender's envelope maps exactly `psbt` to the signed PSBT and `parameters` to the app's parameters |
| `PayjoinEnvelope.ReceiverEnvelope` | Unify/Views/ReceiveView.swift:438-447 | the receiver's envelope maps exactly `psbt:` to the signed proposal and `parameters` to the app's parameters |
| `PayjoinEnvelope.SenderEnvelopeRoundTrip` | Unify/Views/SendView.swift:460-469 | the sender's envelope has only the keys `psbt` and `parameters`, and reads back as its signed PSBT and the app's parameters |
| `PayjoinEnvelope.ReceiverEnvelopeUnreadable` | Unify/Views/ReceiveView.swift:438-447 | the receiver's envelope has only the keys `psbt:` and `parameters`, so the reader finds no PSBT in it, whatever proposal it carries, though the proposal sits under `psbt:` and the parameters read back |
| `PayjoinEnvelope.ReceiverEnvelopeCorrectedRoundTrip` | Unify/Views/ReceiveView.swift:438-447 | keyed `psbt`, the proposal reads back and the envelope has the sender's envelope's shape |
| `PayjoinEnvelope.EnvelopesShareParameters` | Unify/Views/ReceiveView.swift:440-446 | both sides send the same parameters: version 1, maximum additional fee contribution 1000, fee output index 0, minimum fee rate 10, output substitution disabled |
| `ReceiveView.InvoiceUri` | Unify/Views/ReceiveView.swift:64 | the URI starts with `bitcoin:`, is followed by the address, and is as long as the address, amount, npub and the fixed separators together |
| `ReceiveView.InvoiceSection` | Unify/Views/ReceiveView.swift:63-64 | the invoice appears iff the amount parses to a positive number and the address is not empty, and the URI it shows is then the invoice URI of the address, amount and npub |
| `ReceiveView.InvoiceSectionReadsBack` | Unify/Views/ReceiveView.swift:63-64 | when the address field holds no `?` and the amount field no `&`, the URI the section shows reads back as that address, amount and npub |
| `ReceiveView.InvoiceUriRoundTrip` | Unify/Views/ReceiveView.swift:64 | the URI reads back as its fields when the address has no `?` and the amount no `&` |
| `ReceiveView.ParsedInvoiceUriReencodes` | Unify/Views/ReceiveView.swift:64 | whatever the reader accepts is the URI of the fields it returns, with no `?` in the address and no `&` in the amount |
| `ReceiveView.ScreenOriginal` | Unify/Views/ReceiveView.swift:208-232 | the screening crashes exactly on an unparseable invoice address or an output without address; otherwise it passes iff some input is segwit, some output P2WPKH and some output pays the invoice address |
| `ReceiveView.ScreenOriginalPsbt` | Unify/Views/ReceiveView.swift:208-232 | the two loops and guard compute the screening: a crash on an unparseable invoice address or an output without address, a pass iff some output is P2WPKH, some input segwit and some output pays the invoice address, a drop otherwise |
| `ReceiveView.ScanCandidates` | Unify/Views/ReceiveView.swift:262-271 | the scan keeps no more UTXOs than listed |
| `ReceiveView.ScanCandidatesAppend` | Unify/Views/ReceiveView.swift:262-271 | scanning a concatenation stops at a crash in the first part and otherwise concatenates both parts' candidates |
| `ReceiveView.ScanCandidatesMembers` | Unify/Views/ReceiveView.swift:264-269 | the scan crashes iff some confirmed solvable UTXO has an unparseable address; without a crash it keeps exactly the confirmed, solvable UTXOs with a P2WPKH address |
| `ReceiveView.ReceiveView.constructor` | Unify/Views/ReceiveView.swift:28-32 | no candidates, nothing selected, nothing stored or shown |
| `ReceiveView.ReceiveView.ReceiveOriginal` | Unify/Views/ReceiveView.swift:208-272 | the screening is `ScreenOriginal`'s; a screened original is stored and the UTXO list shown iff it finalizes complete with a hex and passes the mempool test; the candidates of a listing are appended iff it passed screening; the selection is untouched |
| `ReceiveView.ReceiveView.OnFinalized` | Unify/Views/ReceiveView.swift:234-255 | the original is stored and the list shown iff finalizing and the mempool test succeed; nothing else changes |
| `ReceiveView.ReceiveView.OnListUnspent` | Unify/Views/ReceiveView.swift:257-272 | the scan's candidates are appended in order, and the crash is reported iff the scan crashes; nothing else changes |
| `ReceiveView.UtxosSelectionView.constructor` | Unify/Views/ReceiveView.swift:307-315 | nothing selected yet |
| `ReceiveView.UtxosSelectionView.Tap` | Unify/Views/ReceiveView.swift:341-355 | after a tap exactly the tapped UTXO is checked, it is the UTXO to consume, the "Add Output" section is on and shows whenever the "Add Input" section did |
| `ReceiveView.CreateProposalShown` | Unify/Views/ReceiveView.swift:373-380 | the button is offered iff the amount field is not empty, whatever the address field holds |
| `ReceiveView.CreateProposalShownCorrected` | Unify/Views/ReceiveView.swift:373-380 | offered iff both fields are filled, and then offered as written too |
| `ReceiveView.EmptyAddressOffersProposal` | Unify/Views/ReceiveView.swift:373 | an empty address with an amount offers the button as written and not when corrected |
| `ReceiveView.ProposalFundingRequest` | Unify/Views/ReceiveView.swift:395-416 | the receiver funds exactly the tapped outpoint with one output of the entered address and amount, lets the wallet add inputs, and asks for no BIP 32 derivations |
| `ReceiveView.JoinRequest` | Unify/Views/ReceiveView.swift:424 | the join lists the receiver's funded PSBT first and the original second, and nothing else |
| `ReceiveView.CreateProposal` | Unify/Views/ReceiveView.swift:394-467 | a proposal is published iff funding, joining, signing and encryption succeed, and the envelope is then the receiver's envelope around the signed joined proposal, carrying the app's parameters and never yielding a PSBT to the sender's reader |
| `ReceiveView.MixedOriginalPasses` | Unify/Views/ReceiveView.swift:209-232 | an original with one legacy input and one non-P2WPKH output passes as written and is dropped by the corrected screening |
| `ReceiveView.ScreenOriginalCorrectedSound` | Unify/Views/ReceiveView.swift:209-232 | an original the corrected screening passes has only segwit inputs and P2WPKH outputs and passes as written too |
| `PayjoinExchange.FundingRequestsCompared` | Unify/Views/ReceiveView.swift:395-414 | both sides fund one input and one output with `add_inputs` and no derivations; only the sender adds `includeWatching` and `replaceable` |
| `PayjoinExchange.TamperedOutputRejected` | Unify/Views/SendView.swift:661-686 | when the original's one output reappears nowhere with address and amount, neither the proposal checks as written nor the corrected ones accept |
| `PayjoinExchange.ScenarioBalances` | Unify/Views/SendView.swift:536-542 | in the worked payjoin, each fee is the input total less the output total, the inputs spend the two UTXOs for their listed amounts, and the proposal's fee is not lower |
| `PayjoinExchange.ScenarioInvoiceReadsBack` | Unify/Views/ReceiveView.swift:64 | in the worked payjoin, the invoice URI reads back as its address, amount and npub |
| `PayjoinExchange.ScenarioReceiverSide` | Unify/Views/ReceiveView.swift:208-271 | in the worked payjoin, the original passes screening and the receiver's UTXO is its only candidate |
| `PayjoinExchange.ScenarioGuardsPass` | Unify/Views/SendView.swift:536-691 | in the worked payjoin, every guard passes, as written and corrected |
| `PayjoinExchange.ScenarioSenderSide` | Unify/Views/SendView.swift:536-691 | in the worked payjoin, the sender's UTXO is spendable and named by its request, and the proposal is accepted as written and corrected |

## Left out

- User interface: layout, QR codes, copy buttons, alerts, the spendable balance total, the transaction sheet and the broadcast there. None of these decide anything about the payjoin.
- The `Pay Invoice` button's conditions: a row needs an address, an amount and a confirmation, and the button is disabled when the UTXO is below the invoice amount. `SendView.SendOriginal` covers any UTXO.
- Node RPC, the signer, Nostr transport (StreamManager), key storage and NIP-04 encryption: these are calls into code that is not part of this model. Their answers are parameters.
- Keypair generation, JSON serialization, the UTF-8 conversion and encryption failures: all of them abort silently. They are folded into one `encrypted` flag.
- The mempool answer: a non-list answer or a missing `allowed` is `None`. An empty answer list would crash on `response[0]`; the model treats it as `None`.
- Parsing of the incoming message: the decrypt, JSON, `EventContent` and base64 PSBT parse steps, and the two `decodepsbt` calls, which run after the fee guard and before the other guards (`Unify/Views/SendView.swift` lines 536-559), abort silently when they fail. The model starts from the decoded PSBTs.
- `EventContent` is not part of this model. It is taken to read the PSBT under the key `psbt`, the key the sender writes.
- The `as!` casts on decoded inputs and the force-unwraps of `input.amount` and `uploadedInvoice!` in display code: the decoded records are typed, and display code is not modelled.
- Amounts: BTC `Double` amounts are integer satoshis. The source compares the proposal's invoice output with a floating-point division. Rounding there is not modelled.
- The positivity test on the invoice amount uses the result of `Double(amount)`. That result is an `Option<real>` parameter.
- Strings: the invoice URI is compared textually. The source's `Invoice` parser is not part of this model; `ReceiveView.ParseInvoiceUri` is a reference reader for the format written at ReceiveView.swift line 64.
- `SendView.SpendableUtxosView.ReceiveProposal` stores the signer's PSBT text, where the source stores the library's re-serialization of it. The fee is kept in satoshis rather than as formatted text.
- `ReceiveView.ReceiveView.ReceiveOriginal`: the `finalizepsbt` and `listunspent` callbacks run concurrently in the source and touch disjoint fields. They are taken in turn.
- Timing of `invoice`: the URI is copied into `invoice` when its section appears. The model gives the URI as a value, with no separate field.
- Key loading in `onAppear`, `fetchAddress`, the peer-npub field and its defaults storage: these are configuration, not decisions.
- Other files (ConfigView, HomeView, the app entry points, the `Pay Join/` copies of the views): these are not part of this model.

## Findings

| source | as written | input that shows it | evidently intended | confidence | as-written member | corrected member |
|---|---|---|---|---|---|---|
| Unify/Views/SendView.swift:579-590 | a wallet UTXO counts as "another input of ours" only when it differs from the chosen one in txid AND vout | chosen `t:0`, wallet also owns `t:1`, the proposal spends both: accepted | reject any proposal that spends a wallet UTXO other than the chosen one (txid OR vout differs) | high, not executed | `SendView.SiblingOutpointNotFlagged` | `SendView.CorrectedVerdictSafe` |
| Unify/Views/SendView.swift:661-676 | only the match of the LAST original output is recorded | original outputs `(a,30),(r,50)`, proposal `(a,20),(r,50)`: accepted | every original output reappears in the proposal | high, not executed | `SendView.EarlierOriginalOutputNotChecked` | `SendView.CorrectedVerdictSafe` |
| Unify/Views/ReceiveView.swift:209-232 | the flags named "all inputs/outputs segwit" are set by ANY segwit input or P2WPKH output | one segwit and one legacy input, one P2WPKH and one other output: passes | every input segwit and every output P2WPKH | high, not executed | `ReceiveView.MixedOriginalPasses` | `ReceiveView.ScreenOriginalCorrectedSound` |
| Unify/Views/ReceiveView.swift:373 | the condition compares the amount field twice and never the address | address `""`, amount `0.0005`: the button is offered | both address and amount are required | high, not executed | `ReceiveView.EmptyAddressOffersProposal` | `ReceiveView.CreateProposalShownCorrected` |
| Unify/Views/ReceiveView.swift:439 | the proposal is published under the key `psbt:` | any signed proposal: the sender's `psbt` reader finds nothing and drops it | the key `psbt` the sender writes and reads | high, not executed | `PayjoinEnvelope.ReceiverEnvelopeUnreadable` | `PayjoinEnvelope.ReceiverEnvelopeCorrectedRoundTrip` |

The corrected definitions are `SendView.OtherOwnedInputCorrected`,
`SendView.AllOriginalOutputsReproduced` (both used by
`SendView.CorrectedProposalVerdict`), `ReceiveView.ScreenOriginalCorrected`,
`ReceiveView.CreateProposalShownCorrected` and
`PayjoinEnvelope.ReceiverEnvelopeCorrected`. The members named in the last
column prove the intended property about them.
