/** When an owner can send its coin on: exactly what `begin_transfer` depends on while the signer lives. */
module Sending {
  import opened Wrappers
  import opened Bitcoin
  import opened Enclave
  import opened Client
  import opened Timing
  import opened Transfer
  import opened Validation
  import opened Wallet
  import opened Ledger
  import opened Protocol
  import opened Agreement
  import opened AgreementUpdates
  import opened JointFacts
  import opened Handover
  import opened Capacity

  /** An owner with nothing pending whose own funding, if it made one, is broadcast. */
  predicate Ready(w: WalletState) {
    && w.coin.Some? && CoinOf(w).currentCap.Some? && CoinOf(w).history != [] && w.pending.None?
    && (CoinOf(w).funding.Some? ==> FundingOf(w).stage == FundingBroadcast)
  }

  /** One more step keeps the larger of the two margins open. */
  predicate NextMarginOk(history: seq<SignedRecovery>, request: TransferRequest, confirmations: u32, minReaction: u32) {
    && NewestDelay(history) >= DELAY_STEP
    && RequireReactionMargin(confirmations, NewestDelay(history) - DELAY_STEP, LargerMargin(minReaction, request)).Ok?
  }

  /** The request is for this coin and names somebody else, the chain shows the coin,
  and one more step is wide enough. */
  predicate MaySend(
      w: WalletState, network: NetworkId, request: TransferRequest, observed: ObservedFunding, minConfirmations: u32,
      minReaction: u32)
  {
    var coin, m := CoinOf(w), MetadataOf(w);
    && Ready(w) && coin.metadata.Some? && request.coinId == coin.keys.coinId && request.outpoint == m.outpoint
    && request.amount == m.amount
    && request.network == network == m.network
    && request.nextCapHash != CapHash(CapOf(w))
    && VerifyObservedFunding(m, observed, minConfirmations).Ok?
    && NextMarginOk(coin.history, request, observed.confirmations, minReaction)
  }

  /** What a ready owner has, by agreement with the log. */
  lemma {:induction false} ReadyHas(world: World, i: nat, w: WalletState)
    requires Known(world, i, w) && Ready(w)
    ensures var coin, log := CoinOf(w), CoinLogOf(world, w);
            && coin.currentHandoff.Some? && coin.withdrawalSecret.Some? && coin.metadata.Some?
            && Point(coin.withdrawalSecret.value) == Last(coin.history).withdrawal
            && log.entries != [] && coin.history == Recoveries(log.entries)
            && LiveAuth(log)
               == Authorization(coin.keys.coinId, CapHash(coin.currentCap.value), coin.currentHandoff.value)
            && coin.metadata.value == world.meta[Key(coin)] && coin.metadata.value.keys == coin.keys
            && coin.outgoing.None?
            && GoodLog(coin.metadata.value, log) && |coin.history| <= 6554
  {
    var log := CoinLogOf(world, w);
    assert log.entries[..|log.entries|] == log.entries;
    KnownLogIsShort(world, i, w);
  }

  lemma {:induction false} OwnHistoryVerifies(world: World, i: nat, w: WalletState, confirmations: u32)
    requires Known(world, i, w) && Ready(w) && CoinLive(world, w) && confirmations < NewestDelay(CoinOf(w).history)
    ensures CoinOf(w).metadata.Some? && CoinOf(w).currentHandoff.Some? && CoinOf(w).withdrawalSecret.Some?
    ensures var coin := CoinOf(w);
            && VerifyRecoveries(coin.metadata.value, coin.history).Ok?
            && VerifyHistory(coin.metadata.value, LiveStatus(world, w), coin.clientSecret, coin.currentCap.value,
                             coin.currentHandoff.value, Point(coin.withdrawalSecret.value), confirmations,
                             coin.history).Ok?
  {
    var coin := CoinOf(w);
    ReadyHas(world, i, w);
    LogVerifies(world, i, w, confirmations);
    HistoryFromParts(coin.metadata.value, LiveStatus(world, w), coin.clientSecret, coin.currentCap.value,
                     coin.currentHandoff.value,
                     Point(coin.withdrawalSecret.value), confirmations, coin.history);
  }

  /** The owner's recovery is canonical, so one a step earlier is too. */
  lemma {:induction false} StepIsCanonical(world: World, i: nat, w: WalletState, withdrawal: PubKey, delay: u32)
    requires Known(world, i, w) && Ready(w) && 0 < delay <= NewestDelay(CoinOf(w).history)
    ensures CoinOf(w).metadata.Some?
    ensures var m := MetadataOf(w);
            CanonicalRecovery(m.outpoint, m.amount, withdrawal, delay)
                == Ok(RecoveryTx(m.outpoint, m.amount, withdrawal, delay))
  {
    hide Known, RecoverySighash;
    ReadyHas(world, i, w);
    var m, log := MetadataOf(w), CoinLogOf(world, w);
    var e := log.entries[|log.entries| - 1];
    assert CanonicalEntry(m, e);
    assert Last(CoinOf(w).history) == RecoveryOf(e);
    assert MinimalNonDust(P2tr(withdrawal)) == MinimalNonDust(P2tr(PayeeOf(e)));
  }

  lemma {:induction false} NextIsPrepared(
      world: World, i: nat, w: WalletState, request: TransferRequest, confirmations: u32)
    requires Known(world, i, w) && Ready(w) && CoinLive(world, w)
    requires NewestDelay(CoinOf(w).history) >= DELAY_STEP && NewestDelay(CoinOf(w).history) - DELAY_STEP > confirmations
    ensures CoinOf(w).metadata.Some? && CoinOf(w).currentHandoff.Some?
    ensures var coin, m := CoinOf(w), MetadataOf(w);
            var p := NextPrepared(coin, m, request, LiveStatus(world, w), confirmations);
            && (p.Ok? <==> request.nextCapHash != CapHash(coin.currentCap.value))
            && (p.Ok? ==> AttemptFits(m, coin.history, p.value.1))
  {
    hide CoinLive, AttemptFits;
    ReadyHas(world, i, w);
    var coin, m := CoinOf(w), MetadataOf(w);
    var delay: u32 := Last(coin.history).delay - DELAY_STEP;
    StepIsCanonical(world, i, w, request.withdrawal, delay);
    OwnHistoryVerifies(world, i, w, confirmations);
    var p := NextPrepared(coin, m, request, LiveStatus(world, w), confirmations);
    if p.Ok? {
      PreparedIsRecovery(m, LiveStatus(world, w), coin.clientSecret, coin.currentCap.value, coin.currentHandoff.value,
                         request.nextCapHash, request.withdrawal, delay, confirmations);
      NextPackageFits(m, coin.history, p.value.1);
    }
  }

  lemma {:induction false} AttemptAllowed(
      world: World, i: nat, w: WalletState, request: TransferRequest, confirmations: u32, minReaction: u32)
    requires Known(world, i, w) && Ready(w) && CoinLive(world, w)
    ensures CoinOf(w).metadata.Some? && CoinOf(w).currentHandoff.Some?
    ensures var coin := CoinOf(w);
            TransferAttempt(coin, coin.metadata.value, request, LiveStatus(world, w), confirmations, minReaction).Ok?
            <==> Last(coin.history).delay >= DELAY_STEP
                 && RequireReactionMargin(confirmations, Last(coin.history).delay - DELAY_STEP,
                                          LargerMargin(minReaction, request)).Ok?
                 && request.nextCapHash != CapHash(coin.currentCap.value)
  {
    hide Known, JsonSize, GoodLog;
    ReadyHas(world, i, w);
    var coin := CoinOf(w);
    AttemptIsGated(coin, coin.metadata.value, request, LiveStatus(world, w), confirmations, minReaction);
    if Last(coin.history).delay >= DELAY_STEP && Last(coin.history).delay - DELAY_STEP > confirmations {
      NextIsPrepared(world, i, w, request, confirmations);
    }
  }

  lemma {:induction false} RequestAllowed(
      world: World, i: nat, w: WalletState, network: NetworkId, request: TransferRequest)
    requires Known(world, i, w) && Ready(w) && ReplayBindingComplete(w)
    ensures CoinOf(w).metadata.Some?
    ensures var coin, m := CoinOf(w), MetadataOf(w);
            ValidateOutgoingRequest(w, network, request).Ok?
            <==> request.coinId == coin.keys.coinId && request.outpoint == m.outpoint && request.amount == m.amount
                 && request.network == network == m.network
  {
    hide Known, Recoveries;
    ReadyHas(world, i, w);
    StepIsCanonical(world, i, w, Point(0), NewestDelay(CoinOf(w).history));
  }

  /**
   While the signer lives, an owner's `begin_transfer` succeeds exactly when
   the request is for its coin and names another capability, the chain shows
   the coin unspent and deep enough, and the next delay clears the larger
   margin. Nothing the wallet stores, its size included, gets in the way.
   */
  lemma {:induction false} OwnerMaySend(
      world: World, i: nat, w: WalletState, network: NetworkId, request: TransferRequest, observed: ObservedFunding,
      minConfirmations: u32, minReaction: u32)
    requires Known(world, i, w) && Ready(w) && CoinLive(world, w) && ReplayBindingComplete(w)
    ensures CoinOf(w).metadata.Some?
    ensures BeginTransfer(w, network, request, LiveStatus(world, w), observed, minConfirmations, minReaction).Ok?
       <==> MaySend(w, network, request, observed, minConfirmations, minReaction)
  {
    hide VerifyRecoveries, HistorySize;
    ReadyHas(world, i, w);
    RequestAllowed(world, i, w, network, request);
    AttemptAllowed(world, i, w, request, observed.confirmations, minReaction);
    if observed.confirmations < NewestDelay(CoinOf(w).history) {
      OwnHistoryVerifies(world, i, w, observed.confirmations);
    }
    BeginIsGated(w, network, request, LiveStatus(world, w), observed, minConfirmations, minReaction);
  }
}
