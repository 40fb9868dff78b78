/**
 The wallet journal of wallet-core/src/state.rs as functions from a state to
 the next state or an error. Random draws are arguments. Module WalletObject
 has the mutable object whose methods are proved against these functions.
 */
module Wallet {
  import opened Wrappers
  import opened Bitcoin
  import opened Enclave
  import opened Client
  import opened Transfer
  import opened Validation
  import opened Funding

  datatype FundingStage = FundingPrepared | RecoverySecured | FundingBroadcast

  datatype FundingJournal = FundingJournal(
    tx: Tx, delay: u32, feeRate: u64, maxFee: u64, fee: u64, stage: FundingStage)

  datatype RecoveryPurpose =
    | Fund(nextCap: Token, withdrawalSecret: Token)
    | Transfer(request: TransferRequest)

  datatype RecoveryStage =
    | Prepared(attempt: RecoveryAttempt)
    | Responded(attempt: RecoveryAttempt, response: SignResponse)

  datatype PendingOperation =
    | PendingRegistration(clientSecret: Token, initialCap: Token, registration: Registration)
    | PendingRecovery(purpose: RecoveryPurpose, stage: RecoveryStage)

  datatype IncomingTransfer = IncomingTransfer(
    request: TransferRequest, cap: Token, withdrawalSecret: Token, transportSecret: Token)

  datatype OutgoingTransfer = OutgoingTransfer(request: TransferRequest, envelope: TransferEnvelope)

  datatype WalletCoin = WalletCoin(
    clientSecret: Token,
    keys: CoinKeys,
    metadata: Option<CoinMetadata>,
    funding: Option<FundingJournal>,
    currentCap: Option<Token>,
    currentHandoff: Option<Token>,
    withdrawalSecret: Option<Token>,
    withdrawalIndex: Option<nat>,
    acceptedRequest: Option<TransferRequest>,
    acceptedFingerprint: Option<Fingerprint>,
    history: seq<SignedRecovery>,
    outgoing: Option<OutgoingTransfer>)

  datatype WalletState = WalletState(
    coin: Option<WalletCoin>,
    incoming: Option<IncomingTransfer>,
    pending: Option<PendingOperation>)

  const EMPTY: WalletState := WalletState(None, None, None)

  // ---------------------------------------------------------------------------
  // Reading a state in statements about it; what is missing reads as a blank.

  const BLANK_TX: Tx := Tx(0, 0, [], [])
  const BLANK_METADATA: CoinMetadata := CoinMetadata(CoinKeys(0, Point(0), Point(0)), Regtest, OutPoint(ZeroTxid, 0), 0)
  const BLANK_COIN: WalletCoin :=
    WalletCoin(0, BLANK_METADATA.keys, None, None, None, None, None, None, None, None, [], None)
  const BLANK_REQUEST: TransferRequest :=
    TransferRequest(0, 0, Regtest, OutPoint(ZeroTxid, 0), 0, Point(0), CapHash(0), Point(0), 0)
  const BLANK_ENVELOPE: TransferEnvelope :=
    TransferEnvelope(0, Point(0), 0, Sealed(TransferKey(SharedPoint(0, 0), 0), 0, BLANK_REQUEST,
                                            TransferPayload(0, 0, 0, BLANK_METADATA, [])))
  const BLANK_SIGN: SignRequest := SignRequest(0, 0, 0, CapHash(0), KeySpend(BLANK_TX, 0, []))
  const BLANK_RESPONSE: SignResponse := SignResponse(Sig(Point(0), KeySpend(BLANK_TX, 0, []), 0), 0)
  const BLANK_ATTEMPT: RecoveryAttempt :=
    RecoveryAttempt(0, 0, BLANK_SIGN, PreparedRecovery(BLANK_SIGN, BLANK_METADATA, BLANK_TX, Point(0), 0))

  function CoinOf(w: WalletState): WalletCoin {
    if w.coin.Some? then w.coin.value else BLANK_COIN
  }

  function MetadataOf(w: WalletState): CoinMetadata {
    if CoinOf(w).metadata.Some? then CoinOf(w).metadata.value else BLANK_METADATA
  }

  function FundingOf(w: WalletState): FundingJournal {
    if CoinOf(w).funding.Some? then CoinOf(w).funding.value else FundingJournal(BLANK_TX, 0, 0, 0, 0, FundingPrepared)
  }

  function CapOf(w: WalletState): Token {
    if CoinOf(w).currentCap.Some? then CoinOf(w).currentCap.value else 0
  }

  function OutgoingOf(w: WalletState): OutgoingTransfer {
    if CoinOf(w).outgoing.Some? then CoinOf(w).outgoing.value else OutgoingTransfer(BLANK_REQUEST, BLANK_ENVELOPE)
  }

  function IncomingOf(w: WalletState): IncomingTransfer {
    if w.incoming.Some? then w.incoming.value else IncomingTransfer(BLANK_REQUEST, 0, 0, 0)
  }

  function NewestDelay(history: seq<SignedRecovery>): u32 {
    if history != [] then Last(history).delay else 0
  }

  predicate HasAttempt(w: WalletState) {
    w.pending.Some? && w.pending.value.PendingRecovery?
  }

  predicate Preparing(w: WalletState) {
    HasAttempt(w) && w.pending.value.stage.Prepared?
  }

  predicate Attempting(w: WalletState) {
    w.coin.Some? && HasAttempt(w)
  }

  predicate Responding(w: WalletState) {
    Attempting(w) && w.pending.value.stage.Responded?
  }

  function PurposeOf(w: WalletState): RecoveryPurpose {
    if HasAttempt(w) then w.pending.value.purpose else Fund(0, 0)
  }

  function AttemptOf(w: WalletState): RecoveryAttempt {
    if HasAttempt(w) then w.pending.value.stage.attempt else BLANK_ATTEMPT
  }

  function ResponseOf(w: WalletState): SignResponse {
    if HasAttempt(w) && !Preparing(w) then w.pending.value.stage.response else BLANK_RESPONSE
  }

  /** `validate_version`, without the version number itself. */
  predicate ReplayBindingComplete(w: WalletState) {
    w.coin.Some? ==> (w.coin.value.acceptedRequest.Some? <==> w.coin.value.acceptedFingerprint.Some?)
  }

  function VersionOk(w: WalletState): Result<(), WalletError> {
    Ensure(ReplayBindingComplete(w), Refused)
  }

  function VerifyLiveStatus(coin: WalletCoin, status: CoinStatus): Result<(), WalletError> {
    var _ :- Lift(VerifyStatus(coin.keys, status));
    if !(status.count == |coin.history|) then Err(Refused) else
    Ensure(
      coin.currentCap.Some? && coin.currentHandoff.Some? ==>
        status.authorization
            == Authorization(coin.keys.coinId, CapHash(coin.currentCap.value), coin.currentHandoff.value),
      Refused)
  }

  // ---------------------------------------------------------------------------
  // Registration.

  function BeginRegistration(w: WalletState, clientSecret: Token, cap: Token, coinId: Token)
    : Result<(WalletState, RegisterRequest), WalletError>
  {
    var _ :- VersionOk(w);
    if !(w.coin.None? && w.incoming.None?) then Err(Refused) else
    match w.pending
    case Some(PendingRegistration(_, _, registration)) => Ok((w, registration.request))
    case Some(PendingRecovery(_, _)) => Err(Refused)
    case None =>
      var registration := Registration(RegisterRequest(coinId, CapHash(cap)), Point(clientSecret));
      Ok((w.(pending := Some(PendingRegistration(clientSecret, cap, registration))), registration.request))
  }

  function CompleteRegistration(w: WalletState, status: CoinStatus): Result<WalletState, WalletError> {
    var _ :- VersionOk(w);
    if !w.coin.None? then Err(Refused) else
    match w.pending
    case None => Err(Refused)
    case Some(PendingRecovery(_, _)) => Err(Refused)
    case Some(PendingRegistration(clientSecret, cap, registration)) =>
      var keys :- Lift(Client.CompleteRegistration(registration, status));
      var coin := WalletCoin(clientSecret, keys, None, None, Some(cap), Some(INITIAL_HANDOFF), None, None, None, None,
                             [], None);
      Ok(w.(coin := Some(coin), pending := None))
  }

  // ---------------------------------------------------------------------------
  // Funding.

  predicate JustRegistered(coin: WalletCoin) {
    coin.metadata.None? && coin.funding.None? && coin.history == [] && coin.currentHandoff == Some(INITIAL_HANDOFF)
  }

  function FundAttempt(
      metadata: CoinMetadata, status: CoinStatus, coin: WalletCoin, delay: u32, nextCap: Token, withdrawalSecret: Token)
    : Result<PendingOperation, WalletError>
  {
    if coin.currentCap.None? || coin.currentHandoff.None? then Err(Refused)
    else
      var p :- Lift(PrepareRecovery(metadata, status, coin.clientSecret, coin.currentCap.value,
                                                      coin.currentHandoff.value, CapHash(nextCap),
                                                      Point(withdrawalSecret), delay, 0));
      Ok(PendingRecovery(Fund(nextCap, withdrawalSecret), Prepared(RecoveryAttempt(status.count, delay, p.0, p.1))))
  }

  function BeginFunding(
      w: WalletState, network: NetworkId, sourceSecret: Token, source: SourceUtxo, status: CoinStatus,
      amount: u64, delay: u32, feeRate: u64, maxFee: u64, minimumReaction: u32,
      nextCap: Token, withdrawalSecret: Token)
    : Result<(WalletState, SignRequest), WalletError>
  {
    var _ :- VersionOk(w);
    if !w.pending.None? then Err(Refused) else
    var _ :- RequireReactionMargin(0, delay, minimumReaction);
    if w.coin.None? then Err(Refused)
    else
      var coin := w.coin.value;
      if !JustRegistered(coin) then Err(Refused) else
      var _ :- VerifyLiveStatus(coin, status);
      if !(status.count == 0 && coin.currentCap.Some?) then Err(Refused) else
      var built :- BuildSourceFunding(coin.keys, sourceSecret, source, amount, feeRate, maxFee);
      var metadata := CoinMetadata(coin.keys, network, built.outpoint, amount);
      var pending :- FundAttempt(metadata, status, coin, delay, nextCap, withdrawalSecret);
      var journal := FundingJournal(built.tx, delay, feeRate, maxFee, built.fee, FundingPrepared);
      var coin' := coin.(metadata := Some(metadata), funding := Some(journal));
      Ok((w.(coin := Some(coin'), pending := Some(pending)), pending.stage.attempt.request))
  }

  function PendingSignRequest(w: WalletState): Result<SignRequest, WalletError> {
    if w.pending.Some? && w.pending.value.PendingRecovery? then Ok(w.pending.value.stage.attempt.request)
    else Err(Refused)
  }

  /** Journals the exact response before any ownership changes; it is not verified here. */
  function RecordSignResponse(w: WalletState, response: SignResponse): Result<WalletState, WalletError> {
    if w.pending.None? || !w.pending.value.PendingRecovery? then Err(Refused)
    else
      match w.pending.value.stage
      case Prepared(attempt) =>
        Ok(w.(pending := Some(PendingRecovery(w.pending.value.purpose, Responded(attempt, response)))))
      case Responded(_, saved) =>
        if saved == response then Ok(w) else Err(Refused)
  }

  function CompleteFunding(w: WalletState, status: CoinStatus): Result<WalletState, WalletError> {
    if w.pending.None? || !w.pending.value.PendingRecovery? then Err(Refused)
    else if !w.pending.value.purpose.Fund? || !w.pending.value.stage.Responded? then Err(Refused)
    else
      var purpose := w.pending.value.purpose;
      var attempt, response := w.pending.value.stage.attempt, w.pending.value.stage.response;
      if attempt.expectedCount != 0 then Err(Refused) else
      if w.coin.None? then Err(Refused)
      else
        var coin := w.coin.value;
        var _ :- Lift(VerifyStatus(coin.keys, status));
        var _ :- Lift(VerifySignResponse(attempt.request, attempt.expectedCount, status, response));
        var recovery :- Lift(CompleteRecovery(attempt.request, response, attempt.prepared, coin.clientSecret));
        if recovery.delay != attempt.delay then Err(Refused) else
        if coin.funding.None? || coin.funding.value.stage != FundingPrepared then Err(Refused)
        else
          var coin' := coin.(
            history := coin.history + [recovery],
            funding := Some(coin.funding.value.(stage := RecoverySecured)),
            currentCap := Some(purpose.nextCap),
            currentHandoff := Some(response.nextHandoff),
            withdrawalSecret := Some(purpose.withdrawalSecret),
            withdrawalIndex := Some(|coin.history|));
          Ok(w.(coin := Some(coin'), pending := None))
  }

  /** The funding transaction, handed out only once its first recovery is durable and verified. */
  function FundingTransaction(w: WalletState): Result<Tx, WalletError> {
    if w.coin.None? || w.coin.value.metadata.None? || w.coin.value.funding.None? then Err(Refused)
    else
      var coin := w.coin.value;
      var metadata, funding := coin.metadata.value, coin.funding.value;
      if funding.stage == FundingPrepared then Err(Refused) else
      var _ :- ValidateFinalizedFunding(metadata, funding.tx);
      if coin.history == [] then Err(Refused)
      else
        if coin.history[0].delay != funding.delay then Err(Refused) else
        var _ :- Lift(VerifyRecovery(metadata, coin.history[0]));
        Ok(funding.tx)
  }

  function MarkFundingBroadcast(w: WalletState, txid: Txid): Result<WalletState, WalletError> {
    var tx :- FundingTransaction(w);
    if ComputeTxid(tx) != txid then Err(Refused) else
    if w.coin.None? || w.coin.value.funding.None? then Err(Refused)
    else
      var coin := w.coin.value;
      Ok(w.(coin := Some(coin.(funding := Some(coin.funding.value.(stage := FundingBroadcast))))))
  }

  // ---------------------------------------------------------------------------
  // Requesting and sending a transfer.

  function BeginTransferRequest(
      w: WalletState, network: NetworkId, coinId: Token, outpoint: OutPoint, amount: u64, minimumReaction: u32,
      requestId: Token, cap: Token, withdrawalSecret: Token, transportSecret: Token)
    : Result<(WalletState, TransferRequest), WalletError>
  {
    var _ :- VersionOk(w);
    if !(w.coin.None? && w.pending.None?) then Err(Refused) else
    if !(!outpoint.IsNull() && minimumReaction >= DELAY_STEP) then Err(Refused) else
    match w.incoming
    case Some(incoming) =>
      var r := incoming.request;
      if !(r.coinId == coinId && r.outpoint == outpoint && r.network == network
                      && r.amount == amount && r.minReaction == minimumReaction) then Err(Refused) else
      Ok((w, r))
    case None =>
      var request := TransferRequest(requestId, coinId, network, outpoint, amount, Point(withdrawalSecret),
                                     CapHash(cap), Point(transportSecret), minimumReaction);
      var _ :- request.Validate();
      Ok((w.(incoming := Some(IncomingTransfer(request, cap, withdrawalSecret, transportSecret))), request))
  }

  function ValidateOutgoingRequest(
      w: WalletState, network: NetworkId, request: TransferRequest): Result<(), WalletError> {
    var _ :- VersionOk(w);
    var _ :- request.Validate();
    if w.coin.None? || w.coin.value.metadata.None? then Err(Refused)
    else
      var coin := w.coin.value;
      var metadata := coin.metadata.value;
      if coin.history == [] then Err(Refused) else
      if !(coin.funding.Some? ==> coin.funding.value.stage == FundingBroadcast) then Err(Refused) else
      Ensure(
        && request.coinId == coin.keys.coinId
        && request.network == network && metadata.network == network
        && request.outpoint == metadata.outpoint
        && request.amount == metadata.amount,
        Refused)
  }

  function LargerMargin(minimumReaction: u32, request: TransferRequest): u32 {
    if minimumReaction >= request.minReaction then minimumReaction else request.minReaction
  }

  /** Prepares the next owner's recovery and checks its margin and the size of the package to come. */
  function TransferAttempt(
      coin: WalletCoin, metadata: CoinMetadata, request: TransferRequest, status: CoinStatus,
      confirmations: u32, minimumReaction: u32)
    : Result<RecoveryAttempt, WalletError>
    requires coin.history != [] && coin.currentCap.Some? && coin.currentHandoff.Some?
  {
    if Last(coin.history).delay < DELAY_STEP then Err(Refused)
    else
      var delay: u32 := Last(coin.history).delay - DELAY_STEP;
      var _ :- RequireReactionMargin(confirmations, delay, LargerMargin(minimumReaction, request));
      var p :- Lift(PrepareRecovery(metadata, status, coin.clientSecret, coin.currentCap.value,
                                    coin.currentHandoff.value,
                                    request.nextCapHash, request.withdrawal, delay, confirmations));
      var template :- Lift(SerializationTemplate(p.1));
      var _ :- ValidatePlaintextSize(JsonSize(MaxBytes(32), MaxBytes(32), metadata, coin.history + [template]));
      Ok(RecoveryAttempt(status.count, delay, p.0, p.1))
  }

  function BeginTransfer(
      w: WalletState, network: NetworkId, request: TransferRequest, status: CoinStatus, observed: ObservedFunding,
      minimumConfirmations: u32, minimumReaction: u32)
    : Result<(WalletState, SignRequest), WalletError>
  {
    if !w.pending.None? then Err(Refused) else
    var _ :- ValidateOutgoingRequest(w, network, request);
    if w.coin.None? || w.coin.value.metadata.None? || w.coin.value.history == [] then Err(Refused)
    else
      var coin := w.coin.value;
      var metadata := coin.metadata.value;
      if !coin.outgoing.None? then Err(Refused) else
      var _ :- VerifyObservedFunding(metadata, observed, minimumConfirmations);
      if coin.currentCap.None? || coin.currentHandoff.None? || coin.withdrawalSecret.None? then Err(Refused)
      else
        var _ :- Lift(VerifyHistory(metadata, status, coin.clientSecret, coin.currentCap.value,
                                    coin.currentHandoff.value,
                                    Point(coin.withdrawalSecret.value), observed.confirmations, coin.history));
        var attempt :- TransferAttempt(coin, metadata, request, status, observed.confirmations, minimumReaction);
        Ok((w.(pending := Some(PendingRecovery(Transfer(request), Prepared(attempt)))), attempt.request))
  }

  function ValidatePendingTransfer(
      w: WalletState, status: CoinStatus, observed: ObservedFunding, minimumConfirmations: u32, minimumReaction: u32)
    : Result<(), WalletError>
  {
    if w.pending.None? || !w.pending.value.PendingRecovery? then Err(Refused)
    else if !w.pending.value.purpose.Transfer? || !w.pending.value.stage.Prepared? then Err(Refused)
    else if w.coin.None? || w.coin.value.metadata.None? then Err(Refused)
    else
      var request := w.pending.value.purpose.request;
      var attempt := w.pending.value.stage.attempt;
      var coin := w.coin.value;
      var metadata := coin.metadata.value;
      var _ :- ValidateOutgoingRequest(w, metadata.network, request);
      var _ :- Lift(VerifyStatus(coin.keys, status));
      var committed :- AttemptCommitted(status, attempt);
      if committed then Ok(())
      else
        if !AttemptUncommitted(status, attempt) then Err(JournalMismatch) else
        var _ :- VerifyObservedFunding(metadata, observed, minimumConfirmations);
        if coin.currentCap.None? || coin.currentHandoff.None? || coin.withdrawalSecret.None? || coin.history == [] then
          Err(Refused)
        else
          if !(attempt.request.cap == coin.currentCap.value
                          && attempt.request.handoff == coin.currentHandoff.value) then Err(Refused) else
          var _ :- Lift(VerifyHistory(metadata, status, coin.clientSecret, coin.currentCap.value,
                                      coin.currentHandoff.value, Point(coin.withdrawalSecret.value),
                                      observed.confirmations, coin.history));
          if !(attempt.expectedCount == |coin.history|) then Err(Refused) else
          if !(Last(coin.history).delay >= DELAY_STEP
                          && attempt.delay == Last(coin.history).delay - DELAY_STEP) then Err(Refused) else
          RequireReactionMargin(observed.confirmations, attempt.delay, LargerMargin(minimumReaction, request))
  }

  function CompleteTransfer(w: WalletState, status: CoinStatus, ephemeral: Token, nonce: Token)
    : Result<(WalletState, TransferEnvelope), WalletError>
  {
    if w.pending.None? || !w.pending.value.PendingRecovery? then Err(Refused)
    else if !w.pending.value.purpose.Transfer? || !w.pending.value.stage.Responded? then Err(Refused)
    else
      var request := w.pending.value.purpose.request;
      var attempt, response := w.pending.value.stage.attempt, w.pending.value.stage.response;
      var _ :- request.Validate();
      if w.coin.None? || w.coin.value.metadata.None? then Err(Refused)
      else
        var coin := w.coin.value;
        var metadata := coin.metadata.value;
        if !(request.coinId == coin.keys.coinId && request.network == metadata.network
                        && request.outpoint == metadata.outpoint && request.amount == metadata.amount)
                           then Err(Refused) else
        var _ :- Lift(VerifyStatus(coin.keys, status));
        var _ :- Lift(VerifySignResponse(attempt.request, attempt.expectedCount, status, response));
        var recovery :- Lift(CompleteRecovery(attempt.request, response, attempt.prepared, coin.clientSecret));
        if recovery.delay != attempt.delay then Err(Refused) else
        if coin.withdrawalIndex.None? || coin.withdrawalIndex.value >= |coin.history| then Err(Refused)
        else
          var retained := coin.history[coin.withdrawalIndex.value];
          var payload := TransferPayload(request.requestId, coin.clientSecret, response.nextHandoff, metadata,
                                         coin.history + [recovery]);
          var envelope :- EncryptTransfer(request, payload, ephemeral, nonce);
          var coin' := coin.(
            history := [retained],
            withdrawalIndex := Some(0),
            currentCap := None,
            currentHandoff := None,
            outgoing := Some(OutgoingTransfer(request, envelope)));
          Ok((w.(coin := Some(coin'), pending := None), envelope))
  }

  /** `Ok((state, true))` takes ownership; `Ok((state, false))` is the replay of the same package. */
  function AcceptTransfer(
      w: WalletState, network: NetworkId, request: TransferRequest, envelope: TransferEnvelope, status: CoinStatus,
      observed: ObservedFunding, minimumConfirmations: u32, minimumReaction: u32)
    : Result<(WalletState, bool), WalletError>
  {
    var _ :- VersionOk(w);
    var _ :- request.Validate();
    if w.coin.Some? then
      if w.coin.value.acceptedRequest == Some(request)
           && w.coin.value.acceptedFingerprint == Some(Fingerprint(envelope))
      then Ok((w, false))
      else Err(Refused)
    else if w.pending.Some? || w.incoming.None? || w.incoming.value.request != request then Err(Refused)
    else
      var incoming := w.incoming.value;
      var payload :- DecryptTransfer(request, incoming.transportSecret, envelope);
      var metadata := payload.metadata;
      if !(metadata.network == network && request.network == network) then Err(Refused) else
      if metadata.keys.coinId != request.coinId then Err(Refused) else
      if metadata.outpoint != request.outpoint then Err(Refused) else
      if metadata.amount != request.amount then Err(Refused) else
      if Point(payload.clientSecret) != metadata.keys.client then Err(Refused) else
      if payload.history == [] then Err(Refused)
      else
        var latest := Last(payload.history);
        if latest.withdrawal != request.withdrawal then Err(Refused) else
        if request.nextCapHash != CapHash(incoming.cap) then Err(Refused) else
        var _ :- VerifyObservedFunding(metadata, observed, minimumConfirmations);
        var _ :- Lift(VerifyHistory(metadata, status, payload.clientSecret, incoming.cap, payload.handoff,
                                    Point(incoming.withdrawalSecret), observed.confirmations, payload.history));
        var _ :- RequireReactionMargin(observed.confirmations, latest.delay, LargerMargin(minimumReaction, request));
        var coin := WalletCoin(
          payload.clientSecret, metadata.keys, Some(metadata), None, Some(incoming.cap), Some(payload.handoff),
          Some(incoming.withdrawalSecret), Some(|payload.history| - 1), Some(request), Some(Fingerprint(envelope)),
          payload.history, None);
        Ok((w.(coin := Some(coin), incoming := None), true))
  }

  // ---------------------------------------------------------------------------
  // What a caller gets out of these functions.

  /** A handed-out funding transaction is final for the coin's outpoint and already covered by a genuine recovery. */
  lemma FundingTransactionIsSafe(w: WalletState)
    requires FundingTransaction(w).Ok?
    ensures var tx := FundingTransaction(w).value;
            && w.coin.Some? && w.coin.value.metadata.Some? && w.coin.value.history != []
            && var metadata := w.coin.value.metadata.value;
               && ComputeTxid(tx) == metadata.outpoint.txid
               && metadata.outpoint.vout < |tx.outputs|
               && tx.outputs[metadata.outpoint.vout] == TxOut(metadata.amount, FundingScript(metadata.keys))
               && GenuineRecovery(metadata, w.coin.value.history[0])
               && w.coin.value.history[0].tx.inputs[0].prevout == metadata.outpoint
  {
    var metadata := w.coin.value.metadata.value;
    VerifyRecoveryIsExact(metadata, w.coin.value.history[0]);
  }

  /** The serialized-size template of this attempt is within the limit. */
  predicate AttemptFits(metadata: CoinMetadata, history: seq<SignedRecovery>, prepared: PreparedRecovery) {
    && SerializationTemplate(prepared).Ok?
    && ValidatePlaintextSize(
         JsonSize(MaxBytes(32), MaxBytes(32), metadata, history + [SerializationTemplate(prepared).value])).Ok?
  }

  /** Whatever the signer answers, the package built from a fitting attempt is within the limit. */
  lemma CompletedPackageFits(
      metadata: CoinMetadata, history: seq<SignedRecovery>, prepared: PreparedRecovery, request: TransferRequest,
      clientSecret: Token, response: SignResponse)
    requires AttemptFits(metadata, history, prepared)
    requires CompleteRecovery(prepared.request, response, prepared, clientSecret).Ok?
    ensures var recovery := CompleteRecovery(prepared.request, response, prepared, clientSecret).value;
            ValidatePlaintextSize(PayloadSize(TransferPayload(
              request.requestId, clientSecret, response.nextHandoff, metadata, history + [recovery]))).Ok?
  {
    hide JsonSize;
    var keys := prepared.metadata.keys;
    var client := Sig(Point(clientSecret), RecoverySighash(prepared.tx, prepared.metadata.amount, keys), 0);
    TemplateDominates(prepared, history, metadata, request.requestId, response.nextHandoff, response.signature, client);
  }

  lemma TransferAttemptFits(
      coin: WalletCoin, metadata: CoinMetadata, request: TransferRequest, status: CoinStatus,
      confirmations: u32, minimumReaction: u32)
    requires coin.history != [] && coin.currentCap.Some? && coin.currentHandoff.Some?
    requires TransferAttempt(coin, metadata, request, status, confirmations, minimumReaction).Ok?
    ensures var attempt := TransferAttempt(coin, metadata, request, status, confirmations, minimumReaction).value;
            && attempt.request == attempt.prepared.request
            && AttemptFits(metadata, coin.history, attempt.prepared)
  {
    hide JsonSize;
  }

  lemma BegunTransferFits(
      w: WalletState, network: NetworkId, request: TransferRequest, status: CoinStatus, observed: ObservedFunding,
      minimumConfirmations: u32, minimumReaction: u32)
    requires BeginTransfer(w, network, request, status, observed, minimumConfirmations, minimumReaction).Ok?
    ensures var begun := BeginTransfer(w, network, request, status, observed, minimumConfirmations,
                                       minimumReaction).value.0;
            && begun.coin == w.coin && begun.pending.value.stage.Prepared?
            && var attempt := begun.pending.value.stage.attempt;
               && attempt.request == attempt.prepared.request
               && AttemptFits(w.coin.value.metadata.value, w.coin.value.history, attempt.prepared)
  {
    var coin := w.coin.value;
    TransferAttemptFits(coin, coin.metadata.value, request, status, observed.confirmations, minimumReaction);
  }

  /** Completing after a successful `begin_transfer` can never trip over the size limit. */
  lemma NeverStuckOnSize(
      w: WalletState, network: NetworkId, request: TransferRequest, status: CoinStatus, observed: ObservedFunding,
      minimumConfirmations: u32, minimumReaction: u32, response: SignResponse, after: CoinStatus, ephemeral: Token,
      nonce: Token)
    requires BeginTransfer(w, network, request, status, observed, minimumConfirmations, minimumReaction).Ok?
    ensures var begun := BeginTransfer(w, network, request, status, observed, minimumConfirmations,
                                       minimumReaction).value.0;
            && RecordSignResponse(begun, response).Ok?
            && CompleteTransfer(RecordSignResponse(begun, response).value, after, ephemeral, nonce) != Err(TooLarge)
  {
    hide JsonSize;
    BegunTransferFits(w, network, request, status, observed, minimumConfirmations, minimumReaction);
    var begun := BeginTransfer(w, network, request, status, observed, minimumConfirmations, minimumReaction).value.0;
    NeverTooLarge(begun, response, after, ephemeral, nonce);
  }

  lemma NeverTooLarge(begun: WalletState, response: SignResponse, after: CoinStatus, ephemeral: Token, nonce: Token)
    requires begun.pending.Some? && begun.pending.value.PendingRecovery? && begun.pending.value.stage.Prepared?
    requires begun.coin.Some? && begun.coin.value.metadata.Some?
    requires var attempt := begun.pending.value.stage.attempt;
             && attempt.request == attempt.prepared.request
             && AttemptFits(begun.coin.value.metadata.value, begun.coin.value.history, attempt.prepared)
    ensures RecordSignResponse(begun, response).Ok?
    ensures CompleteTransfer(RecordSignResponse(begun, response).value, after, ephemeral, nonce) != Err(TooLarge)
  {
    hide CompleteRecovery, JsonSize;
    var responded := RecordSignResponse(begun, response).value;
    if CompleteTransfer(responded, after, ephemeral, nonce) == Err(TooLarge) {
      var coin := begun.coin.value;
      CompletedPackageFits(coin.metadata.value, coin.history, begun.pending.value.stage.attempt.prepared,
                           begun.pending.value.purpose.request, coin.clientSecret, response);
    }
  }
}
