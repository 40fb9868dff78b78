/**
 The mutable wallet state of wallet-core/src/state.rs and the state file of
 wallet/src/store.rs. Every method does what its function in module Wallet
 says, and changes nothing when it fails.
 */
module WalletObject {
  import opened Wrappers
  import opened Bitcoin
  import opened Enclave
  import opened Client
  import opened Transfer
  import opened Validation
  import opened Funding
  import W = Wallet
  import opened Exit
  import opened Driver

  /** A call either moves the state as specified or reports the specified error and moves nothing. */
  predicate Outcome<T(
      ==)
      >(spec: Result<(W.WalletState, T), WalletError>, before: W.WalletState, r: Result<T, WalletError>,
        after: W.WalletState) {
    match spec
    case Ok(p) => r == Ok(p.1) && after == p.0
    case Err(e) => r == Err(e) && after == before
  }

  /** A specification without a result value. */
  function Plain(spec: Result<W.WalletState, WalletError>): Result<(W.WalletState, ()), WalletError> {
    match spec
    case Ok(w) => Ok((w, ()))
    case Err(e) => Err(e)
  }

  class WalletState {
    var coin: Option<W.WalletCoin>
    var incoming: Option<W.IncomingTransfer>
    var pending: Option<W.PendingOperation>

    constructor ()
      ensures State() == W.EMPTY
    {
      coin, incoming, pending := None, None, None;
    }

    function State(): W.WalletState
      reads this
    {
      W.WalletState(coin, incoming, pending)
    }

    method BeginRegistration(
        clientSecret: Token, cap: Token, coinId: Token)
        returns (r: Result<RegisterRequest, WalletError>)
      modifies this
      ensures Outcome(W.BeginRegistration(old(State()), clientSecret, cap, coinId), old(State()), r, State())
    {
      var _ :- W.VersionOk(State());
      if coin.Some? || incoming.Some? { return Err(Refused); }
      match pending {
        case Some(PendingRegistration(_, _, registration)) => return Ok(registration.request);
        case Some(PendingRecovery(_, _)) => return Err(Refused);
        case None =>
      }
      var registration := Registration(RegisterRequest(coinId, CapHash(cap)), Point(clientSecret));
      pending := Some(W.PendingRegistration(clientSecret, cap, registration));
      r := Ok(registration.request);
    }

    method CompleteRegistration(status: CoinStatus) returns (r: Result<(), WalletError>)
      modifies this
      ensures Outcome(Plain(W.CompleteRegistration(old(State()), status)), old(State()), r, State())
    {
      var _ :- W.VersionOk(State());
      if coin.Some? || pending.None? || pending.value.PendingRecovery? { return Err(Refused); }
      var PendingRegistration(clientSecret, cap, registration) := pending.value;
      var keys :- Lift(Client.CompleteRegistration(registration, status));
      coin := Some(W.WalletCoin(clientSecret, keys, None, None, Some(cap), Some(INITIAL_HANDOFF), None, None, None,
                                None, [], None));
      pending := None;
      r := Ok(());
    }

    /** `pending.take()`, then put back on every path. */
    method RecordSignResponse(response: SignResponse) returns (r: Result<(), WalletError>)
      modifies this
      ensures Outcome(Plain(W.RecordSignResponse(old(State()), response)), old(State()), r, State())
    {
      var taken := pending;
      pending := None;
      if taken.None? { return Err(Refused); }
      if taken.value.PendingRegistration? {
        pending := taken;
        return Err(Refused);
      }
      var PendingRecovery(purpose, stage) := taken.value;
      match stage {
        case Prepared(attempt) =>
          pending := Some(W.PendingRecovery(purpose, W.Responded(attempt, response)));
          r := Ok(());
        case Responded(attempt, saved) =>
          pending := Some(W.PendingRecovery(purpose, W.Responded(attempt, saved)));
          r := if saved == response then Ok(()) else Err(Refused);
      }
    }

    method CompleteFundingRecovery(status: CoinStatus) returns (r: Result<(), WalletError>)
      modifies this
      ensures Outcome(Plain(W.CompleteFunding(old(State()), status)), old(State()), r, State())
    {
      if pending.None? || pending.value.PendingRegistration? { return Err(Refused); }
      var PendingRecovery(purpose, stage) := pending.value;
      if !purpose.Fund? || !stage.Responded? { return Err(Refused); }
      var Responded(attempt, response) := stage;
      if attempt.expectedCount != 0 || coin.None? { return Err(Refused); }
      var c := coin.value;
      var _ :- Lift(VerifyStatus(c.keys, status));
      var _ :- Lift(VerifySignResponse(attempt.request, attempt.expectedCount, status, response));
      var recovery :- Lift(CompleteRecovery(attempt.request, response, attempt.prepared, c.clientSecret));
      if recovery.delay != attempt.delay { return Err(Refused); }
      if c.funding.None? || c.funding.value.stage != W.FundingPrepared { return Err(Refused); }
      c := c.(history := c.history + [recovery]);
      c := c.(funding := Some(c.funding.value.(stage := W.RecoverySecured)));
      c := c.(currentCap := Some(purpose.nextCap), currentHandoff := Some(response.nextHandoff));
      c := c.(withdrawalSecret := Some(purpose.withdrawalSecret), withdrawalIndex := Some(|c.history| - 1));
      coin := Some(c);
      pending := None;
      r := Ok(());
    }

    method MarkFundingBroadcast(txid: Txid) returns (r: Result<(), WalletError>)
      modifies this
      ensures Outcome(Plain(W.MarkFundingBroadcast(old(State()), txid)), old(State()), r, State())
    {
      var tx :- W.FundingTransaction(State());
      if ComputeTxid(tx) != txid { return Err(Refused); }
      var c := coin.value;
      coin := Some(c.(funding := Some(c.funding.value.(stage := W.FundingBroadcast))));
      r := Ok(());
    }

    method BeginTransferRequest(
        network: NetworkId, coinId: Token, outpoint: OutPoint, amount: u64, minimumReaction: u32,
        requestId: Token, cap: Token, withdrawalSecret: Token, transportSecret: Token)
      returns (r: Result<TransferRequest, WalletError>)
      modifies this
      ensures Outcome(W.BeginTransferRequest(old(State()), network, coinId, outpoint, amount, minimumReaction,
                                             requestId, cap, withdrawalSecret, transportSecret),
                      old(State()), r, State())
    {
      var _ :- W.VersionOk(State());
      if coin.Some? || pending.Some? || outpoint.IsNull() || minimumReaction < DELAY_STEP { return Err(Refused); }
      if incoming.Some? {
        var saved := incoming.value.request;
        if saved.coinId != coinId || saved.outpoint != outpoint || saved.network != network
           || saved.amount != amount || saved.minReaction != minimumReaction
        {
          return Err(Refused);
        }
        return Ok(saved);
      }
      var request := TransferRequest(requestId, coinId, network, outpoint, amount, Point(withdrawalSecret),
                                     CapHash(cap), Point(transportSecret), minimumReaction);
      var _ :- request.Validate();
      incoming := Some(W.IncomingTransfer(request, cap, withdrawalSecret, transportSecret));
      r := Ok(request);
    }

    method BeginFunding(
        network: NetworkId, sourceSecret: Token, source: SourceUtxo, status: CoinStatus, amount: u64, delay: u32,
        feeRate: u64, maxFee: u64, minimumReaction: u32, nextCap: Token, withdrawalSecret: Token)
      returns (r: Result<SignRequest, WalletError>)
      modifies this
      ensures Outcome(W.BeginFunding(old(State()), network, sourceSecret, source, status, amount, delay, feeRate,
                                     maxFee,
                                     minimumReaction, nextCap, withdrawalSecret),
                      old(State()), r, State())
    {
      var _ :- W.VersionOk(State());
      if pending.Some? { return Err(Refused); }
      var _ :- RequireReactionMargin(0, delay, minimumReaction);
      if coin.None? || !W.JustRegistered(coin.value) { return Err(Refused); }
      var c := coin.value;
      var _ :- W.VerifyLiveStatus(c, status);
      if status.count != 0 || c.currentCap.None? { return Err(Refused); }
      var built :- BuildSourceFunding(c.keys, sourceSecret, source, amount, feeRate, maxFee);
      var metadata := CoinMetadata(c.keys, network, built.outpoint, amount);
      var attempt :- W.FundAttempt(metadata, status, c, delay, nextCap, withdrawalSecret);
      c := c.(metadata := Some(metadata));
      c := c.(funding := Some(W.FundingJournal(built.tx, delay, feeRate, maxFee, built.fee, W.FundingPrepared)));
      coin := Some(c);
      pending := Some(attempt);
      r := Ok(attempt.stage.attempt.request);
    }

    method BeginTransfer(
        network: NetworkId, request: TransferRequest, status: CoinStatus, observed: ObservedFunding,
        minimumConfirmations: u32, minimumReaction: u32)
      returns (r: Result<SignRequest, WalletError>)
      modifies this
      ensures Outcome(W.BeginTransfer(old(State()), network, request, status, observed, minimumConfirmations,
                                      minimumReaction),
                      old(State()), r, State())
    {
      if pending.Some? { return Err(Refused); }
      var _ :- W.ValidateOutgoingRequest(State(), network, request);
      var c := coin.value;
      var metadata := c.metadata.value;
      if c.outgoing.Some? { return Err(Refused); }
      var _ :- VerifyObservedFunding(metadata, observed, minimumConfirmations);
      if c.currentCap.None? || c.currentHandoff.None? || c.withdrawalSecret.None? { return Err(Refused); }
      var _ :- Lift(VerifyHistory(metadata, status, c.clientSecret, c.currentCap.value, c.currentHandoff.value,
                                  Point(c.withdrawalSecret.value), observed.confirmations, c.history));
      var attempt :- W.TransferAttempt(c, metadata, request, status, observed.confirmations, minimumReaction);
      pending := Some(W.PendingRecovery(W.Transfer(request), W.Prepared(attempt)));
      r := Ok(attempt.request);
    }

    method CompleteTransfer(
        status: CoinStatus, ephemeral: Token, nonce: Token)
        returns (r: Result<TransferEnvelope, WalletError>)
      modifies this
      ensures Outcome(W.CompleteTransfer(old(State()), status, ephemeral, nonce), old(State()), r, State())
    {
      if pending.None? || pending.value.PendingRegistration? { return Err(Refused); }
      var PendingRecovery(purpose, stage) := pending.value;
      if !purpose.Transfer? || !stage.Responded? { return Err(Refused); }
      var request := purpose.request;
      var Responded(attempt, response) := stage;
      var _ :- request.Validate();
      if coin.None? || coin.value.metadata.None? { return Err(Refused); }
      var c := coin.value;
      var metadata := c.metadata.value;
      if request.coinId != c.keys.coinId || request.network != metadata.network
         || request.outpoint != metadata.outpoint || request.amount != metadata.amount
      {
        return Err(Refused);
      }
      var _ :- Lift(VerifyStatus(c.keys, status));
      var _ :- Lift(VerifySignResponse(attempt.request, attempt.expectedCount, status, response));
      var recovery :- Lift(CompleteRecovery(attempt.request, response, attempt.prepared, c.clientSecret));
      if recovery.delay != attempt.delay { return Err(Refused); }
      if c.withdrawalIndex.None? || c.withdrawalIndex.value >= |c.history| { return Err(Refused); }
      var retained := c.history[c.withdrawalIndex.value];
      var payload := TransferPayload(request.requestId, c.clientSecret, response.nextHandoff, metadata,
                                     c.history + [recovery]);
      var envelope :- EncryptTransfer(request, payload, ephemeral, nonce);
      c := c.(history := [retained], withdrawalIndex := Some(0));
      c := c.(currentCap := None, currentHandoff := None);
      c := c.(outgoing := Some(W.OutgoingTransfer(request, envelope)));
      coin := Some(c);
      pending := None;
      r := Ok(envelope);
    }

    method AcceptTransfer(
        network: NetworkId, request: TransferRequest, envelope: TransferEnvelope, status: CoinStatus,
        observed: ObservedFunding, minimumConfirmations: u32, minimumReaction: u32)
      returns (r: Result<bool, WalletError>)
      modifies this
      ensures Outcome(W.AcceptTransfer(old(State()), network, request, envelope, status, observed, minimumConfirmations,
                                       minimumReaction),
                      old(State()), r, State())
    {
      var _ :- W.VersionOk(State());
      var _ :- request.Validate();
      if coin.Some? {
        var replay := coin.value.acceptedRequest == Some(request)
            && coin.value.acceptedFingerprint == Some(Fingerprint(envelope));
        return if replay then Ok(false) else Err(Refused);
      }
      if pending.Some? || incoming.None? || incoming.value.request != request { return Err(Refused); }
      var saved := incoming.value;
      var payload :- DecryptTransfer(request, saved.transportSecret, envelope);
      var metadata := payload.metadata;
      if metadata.network != network || request.network != network { return Err(Refused); }
      if metadata.keys.coinId != request.coinId || metadata.outpoint != request.outpoint
           || metadata.amount != request.amount {
        return Err(Refused);
      }
      if Point(payload.clientSecret) != metadata.keys.client || payload.history == [] { return Err(Refused); }
      var latest := Last(payload.history);
      if latest.withdrawal != request.withdrawal || request.nextCapHash != CapHash(saved.cap) { return Err(Refused); }
      var _ :- VerifyObservedFunding(metadata, observed, minimumConfirmations);
      var _ :- Lift(VerifyHistory(metadata, status, payload.clientSecret, saved.cap, payload.handoff,
                                  Point(saved.withdrawalSecret), observed.confirmations, payload.history));
      var _ :- RequireReactionMargin(observed.confirmations, latest.delay, W.LargerMargin(minimumReaction, request));
      coin := Some(W.WalletCoin(
        payload.clientSecret, metadata.keys, Some(metadata), None, Some(saved.cap), Some(payload.handoff),
        Some(saved.withdrawalSecret), Some(|payload.history| - 1), Some(request), Some(Fingerprint(envelope)),
        payload.history, None));
      incoming := None;
      r := Ok(true);
    }
  }

  /** No exit is journaled, or the coin's owned recovery is the one it was built from. */
  predicate KeepsOwnedRecovery(native: Native, w: W.WalletState) {
    native.exit.Some? ==>
      && w.coin.Some? && native.wallet.coin.Some?
      && var network := native.exit.value.package.network;
         OwnedRecovery(w.coin.value, network) == OwnedRecovery(native.wallet.coin.value, network)
  }

  lemma StaysLoadable(cfg: Config, native: Native, w: W.WalletState)
    requires NativeValid(cfg, native) && W.ReplayBindingComplete(w) && KeepsOwnedRecovery(native, w)
    ensures NativeValid(cfg, native.(wallet := w))
  {
    if native.exit.Some? {
      PackageDependsOnOwnedRecovery(native.exit.value.package, w.coin.value, native.wallet.coin.value);
    }
  }

  /** The encrypted state file, as one atomic cell. */
  class Store {
    const cfg: Config
    var file: Native

    constructor (cfg: Config, fundingSecret: Token)
      ensures this.cfg == cfg && file == Native(fundingSecret, W.EMPTY, None, None) && Valid()
    {
      this.cfg := cfg;
      file := Native(fundingSecret, W.EMPTY, None, None);
    }

    /** The file loads. */
    predicate Valid()
      reads this
    {
      NativeValid(cfg, file)
    }

    method LoadNative() returns (r: Result<Native, WalletError>)
      ensures Valid() ==> r == Ok(file)
      ensures !Valid() ==> r.Err?
    {
      if !NativeValid(cfg, file) { return Err(Refused); }
      r := Ok(file);
    }

    /**
     Writes the wallet and keeps the exit and sweep journals that are on disk.
     The result is not validated: it still loads when no exit is journaled or
     the owned recovery, which the exit was built from, is the same.
     */
    method Save(state: WalletState) returns (r: Result<(), WalletError>)
      modifies this`file
      ensures r.Ok? <==> W.ReplayBindingComplete(state.State()) && old(Valid())
      ensures r.Ok? ==> file == old(file).(wallet := state.State())
      ensures r.Err? ==> file == old(file)
      ensures r.Ok? && KeepsOwnedRecovery(old(file), state.State()) ==> Valid()
    {
      var _ :- W.VersionOk(state.State());
      var native :- LoadNative();
      file := native.(wallet := state.State());
      if KeepsOwnedRecovery(native, state.State()) {
        StaysLoadable(cfg, native, state.State());
      }
      r := Ok(());
    }

    /** Writes everything, after validating it. */
    method SaveNative(native: Native) returns (r: Result<(), WalletError>)
      modifies this`file
      ensures r.Ok? <==> NativeValid(cfg, native)
      ensures file == if r.Ok? then native else old(file)
      ensures r.Ok? || old(Valid()) ==> Valid()
    {
      if !NativeValid(cfg, native) { return Err(Refused); }
      file := native;
      r := Ok(());
    }
  }
}
