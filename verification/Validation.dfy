/** Read-only checks of wallet-core/src/validation.rs. */
module Validation {
  import opened Wrappers
  import opened Bitcoin
  import opened Enclave
  import opened Client
  import opened Transfer
  import opened Timing

  datatype ObservedFunding = ObservedFunding(
    outpoint: OutPoint, output: TxOut, confirmations: u32, unspent: bool, coinbase: bool)

  datatype RecoveryAttempt = RecoveryAttempt(
    expectedCount: u64, delay: u32, request: SignRequest, prepared: PreparedRecovery)

  predicate AcceptableInput(input: TxIn) {
    && !input.prevout.IsNull()
    && input.scriptSig == [] && input.stack != []
    && !IsRbf(input.sequence)
  }

  function ValidateFundingInputs(tx: Tx): Result<(), WalletError> {
    Ensure(
      && tx.inputs != []
      && |tx.inputs| <= MAX_STANDARD_INPUTS
      && Weight(tx) <= MAX_STANDARD_WEIGHT
      && (forall i :: 0 <= i < |tx.inputs| ==> AcceptableInput(tx.inputs[i])),
      Refused)
  }

  function CountScript(outputs: seq<TxOut>, script: Script): nat {
    if outputs == [] then 0
    else (if outputs[0].script == script then 1 else 0) + CountScript(outputs[1..], script)
  }

  function ValidateFinalizedFunding(metadata: CoinMetadata, tx: Tx): Result<(), WalletError> {
    var _ :- ValidateFundingInputs(tx);
    if ComputeTxid(tx) != metadata.outpoint.txid then Err(Refused) else
    if CountScript(tx.outputs, FundingScript(metadata.keys)) != 1 then Err(Refused) else
    if metadata.outpoint.vout >= |tx.outputs| then Err(Refused)
    else Lift(VerifyFundingUtxo(metadata, metadata.outpoint, tx.outputs[metadata.outpoint.vout]))
  }

  function VerifyObservedOutput(metadata: CoinMetadata, observed: ObservedFunding, minimumConfirmations: u32)
    : Result<(), WalletError>
  {
    if observed.outpoint != metadata.outpoint then Err(Refused) else
    var _ :- Lift(VerifyFundingUtxo(metadata, observed.outpoint, observed.output));
    if !(observed.confirmations >= minimumConfirmations) then Err(Refused) else
    Ensure(!observed.coinbase || observed.confirmations >= 100, Refused)
  }

  function VerifyObservedFunding(metadata: CoinMetadata, observed: ObservedFunding, minimumConfirmations: u32)
    : Result<(), WalletError>
  {
    var _ :- VerifyObservedOutput(metadata, observed, minimumConfirmations);
    Ensure(observed.unspent, FundingSpent)
  }

  /** `delay > confirmations + margin`, with the addition checked in 32 bits. */
  function RequireReactionMargin(confirmations: u32, delay: u32, minimumReaction: u32): Result<(), WalletError> {
    Ensure(confirmations + minimumReaction <= U32_MAX && delay > confirmations + minimumReaction, UnsafeMargin)
  }

  function VerifyPublicHistory(
      metadata: CoinMetadata, status: CoinStatus, history: seq<SignedRecovery>, confirmations: u32,
      minimumReaction: u32)
    : Result<(), WalletError>
  {
    var _ :- Lift(VerifyStatus(metadata.keys, status));
    if !(status.count == |history|) then Err(Refused) else
    if history == [] then Err(Refused)
    else
      var _ :- Lift(VerifyRecoveries(metadata, history));
      var _ :- Lift(VerifyWindows(confirmations, history));
      RequireReactionMargin(confirmations, Last(history).delay, minimumReaction)
  }

  predicate AttemptUncommitted(status: CoinStatus, attempt: RecoveryAttempt) {
    && status.count == attempt.expectedCount
    && status.authorization == Opened(attempt.request)
  }

  function AttemptCommitted(status: CoinStatus, attempt: RecoveryAttempt): Result<bool, WalletError> {
    if attempt.expectedCount == U64_MAX then Err(Refused)
    else Ok(status.count == attempt.expectedCount + 1)
  }

  /** A public receipt shows the same reaction window as an owner's own check, margin included. */
  lemma PublicHistoryWindow(
      metadata: CoinMetadata, status: CoinStatus, history: seq<SignedRecovery>,
      confirmations: u32, minimumReaction: u32, i: nat, later: nat)
    requires VerifyPublicHistory(metadata, status, history, confirmations, minimumReaction).Ok?
    requires i < |history|
    ensures Final(history[i].delay, later) <==> later >= Last(history).delay + DELAY_STEP * (|history| - 1 - i)
    ensures later <= confirmations + minimumReaction ==> !Final(history[i].delay, later)
    ensures DELAY_STEP * (|history| - 1) + confirmations + minimumReaction < history[0].delay <= U16_MAX
  {
    DelaysStepExactly(confirmations, history, i, |history| - 1);
    DelaysStepExactly(confirmations, history, 0, |history| - 1);
    VerifyRecoveriesIsExact(metadata, history);
    assert VerifyRecovery(metadata, history[0]).Ok?;
  }
}
