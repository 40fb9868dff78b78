/** From one owner to the next: packages are accepted, capabilities have one holder. */
module Handover {
  import opened Wrappers
  import opened Bitcoin
  import opened Enclave
  import opened Client
  import opened Timing
  import opened Transfer
  import opened Validation
  import opened Wallet
  import opened Ledger
  import opened Protocol
  import opened Agreement
  import opened AgreementUpdates
  import opened JointFacts

  // ---------------------------------------------------------------------------
  // Accepting a released package.

  /** A package on its way: released by `sender`, requested by `w`, whose capability is unspent. */
  ghost predicate InTransit(
      world: World, s: nat, sender: WalletState, j: nat, w: WalletState, envelope: TransferEnvelope) {
    && Known(world, s, sender) && Fits(sender) && FromSender(world, s, sender, envelope)
    && WalletOk(world, j, w) && w.coin.None? && w.incoming.Some? && IncomingOf(w).request == envelope.ciphertext.aad
    && !UsedCap(CoinLogOf(world, sender), IncomingOf(w).cap)
  }

  lemma PackageOpens(world: World, s: nat, sender: WalletState, j: nat, w: WalletState, envelope: TransferEnvelope)
    requires InTransit(world, s, sender, j, w, envelope)
    ensures DecryptTransfer(IncomingOf(w).request, IncomingOf(w).transportSecret, envelope)
            == Ok(envelope.ciphertext.payload)
  {
    hide HasCoin;
    SealThenOpen(IncomingOf(w).request, envelope.ciphertext.payload, IncomingOf(w).transportSecret,
                 envelope.ephemeral.secret, envelope.nonce);
  }

  /** The live status says what the receiver was promised. */
  lemma PackageMatchesSigner(
      world: World, s: nat, sender: WalletState, j: nat, w: WalletState, envelope: TransferEnvelope)
    requires InTransit(world, s, sender, j, w, envelope) && CoinLive(world, sender)
    ensures var payload, status := envelope.ciphertext.payload, LiveStatus(world, sender);
            && payload.history == Recoveries(CoinLogOf(world, sender).entries) && payload.history != []
            && status.count == |payload.history|
            && status.authorization
               == Authorization(payload.metadata.keys.coinId, CapHash(IncomingOf(w).cap), payload.handoff)
            && VerifyStatus(payload.metadata.keys, status).Ok?
            && Point(payload.clientSecret) == payload.metadata.keys.client
            && Last(payload.history).withdrawal == Point(IncomingOf(w).withdrawalSecret)
  {
    PackageIsNewest(world, s, sender, envelope, IncomingOf(w).cap);
    var log := CoinLogOf(world, sender);
    assert log.entries[..|log.entries|] == log.entries;
  }

  lemma {:induction false} LogVerifies(world: World, i: nat, w: WalletState, confirmations: u32)
    requires Known(world, i, w) && CoinOf(w).metadata.Some? && CoinLogOf(world, w).entries != []
    requires confirmations < Last(Recoveries(CoinLogOf(world, w).entries)).delay
    ensures VerifyRecoveries(MetadataOf(w), Recoveries(CoinLogOf(world, w).entries)).Ok?
    ensures VerifyWindows(confirmations, Recoveries(CoinLogOf(world, w).entries)).Ok?
  {
    hide Gone, VerifySignedRecovery, GoodLog;
    var key, log := Key(CoinOf(w)), CoinLogOf(world, w);
    assert log.entries[..|log.entries|] == log.entries;
    PrefixVerifies(world.meta[key], key, log, |log.entries|, confirmations);
  }

  /** The receiver's own history check passes on the whole log,
  at any confirmation count its newest delay leaves open. */
  lemma PackageHistoryVerifies(
      world: World, s: nat, sender: WalletState, j: nat, w: WalletState, envelope: TransferEnvelope, confirmations: u32)
    requires InTransit(world, s, sender, j, w, envelope) && CoinLive(world, sender)
    requires confirmations < Last(envelope.ciphertext.payload.history).delay
    ensures var payload, incoming := envelope.ciphertext.payload, IncomingOf(w);
            VerifyHistory(payload.metadata, LiveStatus(world, sender), payload.clientSecret, incoming.cap,
                          payload.handoff,
                          Point(incoming.withdrawalSecret), confirmations, payload.history).Ok?
  {
    hide Fits, Known, PendingOk, VerifyRecoveries, RecoveryOf;
    var payload := envelope.ciphertext.payload;
    PackageMatchesSigner(world, s, sender, j, w, envelope);
    LogVerifies(world, s, sender, confirmations);
    HistoryFromParts(payload.metadata, LiveStatus(world, sender), payload.clientSecret, IncomingOf(w).cap,
                     payload.handoff,
                     Point(IncomingOf(w).withdrawalSecret), confirmations, payload.history);
  }

  lemma {:induction false} HistoryFromParts(
      metadata: CoinMetadata, status: CoinStatus, clientSecret: Token, cap: Token, handoff: Token, latest: PubKey,
      confirmations: u32, history: seq<SignedRecovery>)
    requires VerifyStatus(metadata.keys, status).Ok? && Point(clientSecret) == metadata.keys.client
    requires status.authorization == Authorization(metadata.keys.coinId, CapHash(cap), handoff)
             && status.count == |history|
    requires history != [] && Last(history).withdrawal == latest && confirmations < Last(history).delay
    requires VerifyRecoveries(metadata, history).Ok? && VerifyWindows(confirmations, history).Ok?
    ensures VerifyHistory(metadata, status, clientSecret, cap, handoff, latest, confirmations, history).Ok?
  {
  }

  /** What only the chain and the receiver's policy decide. */
  predicate ChainAllows(
      request: TransferRequest, payload: TransferPayload, observed: ObservedFunding, minConfirmations: u32,
      minReaction: u32)
  {
    && VerifyObservedFunding(payload.metadata, observed, minConfirmations).Ok?
    && RequireReactionMargin(observed.confirmations, NewestDelay(payload.history),
                             LargerMargin(minReaction, request)).Ok?
  }

  lemma AcceptFromParts(
      w: WalletState, envelope: TransferEnvelope, status: CoinStatus, observed: ObservedFunding,
      minConfirmations: u32, minReaction: u32)
    requires w.coin.None? && w.pending.None? && w.incoming.Some?
    requires var incoming, payload := IncomingOf(w), envelope.ciphertext.payload;
             var request := incoming.request;
             && request.Validate().Ok? && request.nextCapHash == CapHash(incoming.cap)
             && DecryptTransfer(request, incoming.transportSecret, envelope) == Ok(payload)
             && payload.history != [] && payload.metadata.network == request.network
             && payload.metadata.keys.coinId == request.coinId && payload.metadata.outpoint == request.outpoint
             && payload.metadata.amount == request.amount && Point(payload.clientSecret) == payload.metadata.keys.client
             && Last(payload.history).withdrawal == request.withdrawal
             && (observed.confirmations < Last(payload.history).delay ==>
                   VerifyHistory(payload.metadata, status, payload.clientSecret, incoming.cap, payload.handoff,
                                 Point(incoming.withdrawalSecret), observed.confirmations, payload.history).Ok?)
    ensures var request := IncomingOf(w).request;
            var result := AcceptTransfer(w, request.network, request, envelope, status, observed, minConfirmations,
                                         minReaction);
            && (result.Ok?
                <==> ChainAllows(request, envelope.ciphertext.payload, observed, minConfirmations, minReaction))
            && (result.Ok? ==> result.value.1 && AcceptedFrom(w, request, envelope, result.value.0))
  {
    hide VerifyHistory, PayloadSize;
  }

  /** A released package is accepted exactly when the chain and the receiver's own margin allow it. */
  lemma PackageAccepted(
      world: World, s: nat, sender: WalletState, j: nat, w: WalletState, envelope: TransferEnvelope,
      observed: ObservedFunding, minConfirmations: u32, minReaction: u32)
    requires InTransit(world, s, sender, j, w, envelope) && CoinLive(world, sender)
    ensures envelope.ciphertext.payload.history != []
    ensures var request := IncomingOf(w).request;
            var result := AcceptTransfer(w, request.network, request, envelope, LiveStatus(world, sender), observed,
                                         minConfirmations, minReaction);
            && (result.Ok?
                <==> ChainAllows(request, envelope.ciphertext.payload, observed, minConfirmations, minReaction))
            && (result.Ok? ==> result.value.1 && AcceptedFrom(w, request, envelope, result.value.0))
  {
    hide Known, Fits;
    PackageOpens(world, s, sender, j, w, envelope);
    if observed.confirmations < Last(envelope.ciphertext.payload.history).delay {
      PackageHistoryVerifies(world, s, sender, j, w, envelope, observed.confirmations);
    }
    AcceptFromParts(w, envelope, LiveStatus(world, sender), observed, minConfirmations, minReaction);
  }

  /** Accepting the same package again changes nothing and says so, whatever anyone observes by then. */
  lemma AcceptAgainIsNoOp(
      w: WalletState, request: TransferRequest, envelope: TransferEnvelope, w': WalletState, network: NetworkId,
      status: CoinStatus, observed: ObservedFunding, minConfirmations: u32, minReaction: u32)
    requires AcceptedFrom(w, request, envelope, w') && request.Validate().Ok?
    ensures AcceptTransfer(w', network, request, envelope, status, observed, minConfirmations, minReaction)
            == Ok((w', false))
  {
  }

  // ---------------------------------------------------------------------------
  // Holders.

  /** No capability is held by two wallets. */
  lemma OneHolder(world: World, i: nat, w: WalletState, j: nat, other: WalletState, id: Token, id': Token, cap: Token)
    requires WalletOk(world, i, w) && WalletOk(world, j, other) && Holds(w, id, cap) && Holds(other, id', cap)
    ensures i == j
  {
  }

  /** A wallet with a coin never holds a capability that was spent under its key and is live again. */
  lemma SpentIsNotHeld(world: World, i: nat, w: WalletState, cap: Token)
    requires Known(world, i, w) && Holds(w, CoinOf(w).keys.coinId, cap)
    requires LiveAuth(CoinLogOf(world, w)).capHash == CapHash(cap)
    ensures !UsedCap(CoinLogOf(world, w), cap)
  {
    hide WalletOk, AdoptedOk, AttemptOk;
    var log := CoinLogOf(world, w);
    assert log.entries != [] ==> EntryAuthorized(Key(CoinOf(w)), log, |log.entries| - 1);
  }

  /** Two requests that differ only in whom they name. */
  predicate SameTerms(a: TransferRequest, b: TransferRequest) {
    && a.coinId == b.coinId && a.network == b.network && a.outpoint == b.outpoint && a.amount == b.amount
    && a.minReaction == b.minReaction
  }

  /** Everything `begin_transfer` checks before it prepares the attempt; none of it looks at whom the request names. */
  predicate BeginGate(
      w: WalletState, network: NetworkId, request: TransferRequest, status: CoinStatus, observed: ObservedFunding,
      minConfirmations: u32)
  {
    && w.pending.None? && ValidateOutgoingRequest(w, network, request).Ok?
    && w.coin.Some? && CoinOf(w).metadata.Some? && CoinOf(w).history != []
    && CoinOf(w).outgoing.None? && VerifyObservedFunding(MetadataOf(w), observed, minConfirmations).Ok?
    && CoinOf(w).currentCap.Some? && CoinOf(w).currentHandoff.Some? && CoinOf(w).withdrawalSecret.Some?
    && VerifyHistory(MetadataOf(w), status, CoinOf(w).clientSecret, CapOf(w),
                     CoinOf(w).currentHandoff.value, Point(CoinOf(w).withdrawalSecret.value), observed.confirmations,
                     CoinOf(w).history).Ok?
  }

  lemma BeginNeedsGate(
      w: WalletState, network: NetworkId, request: TransferRequest, status: CoinStatus, observed: ObservedFunding,
      minConfirmations: u32, minReaction: u32)
    requires BeginTransfer(w, network, request, status, observed, minConfirmations, minReaction).Ok?
    ensures BeginGate(w, network, request, status, observed, minConfirmations)
  {
  }

  lemma GateDecidesBegin(
      w: WalletState, network: NetworkId, request: TransferRequest, status: CoinStatus, observed: ObservedFunding,
      minConfirmations: u32, minReaction: u32)
    requires BeginGate(w, network, request, status, observed, minConfirmations)
    ensures BeginTransfer(w, network, request, status, observed, minConfirmations, minReaction).Ok?
       <==> TransferAttempt(CoinOf(w), MetadataOf(w), request, status, observed.confirmations, minReaction).Ok?
  {
  }

  lemma BeginIsGated(
      w: WalletState, network: NetworkId, request: TransferRequest, status: CoinStatus, observed: ObservedFunding,
      minConfirmations: u32, minReaction: u32)
    ensures BeginTransfer(w, network, request, status, observed, minConfirmations, minReaction).Ok?
       <==> BeginGate(w, network, request, status, observed, minConfirmations)
            && TransferAttempt(CoinOf(w), MetadataOf(w), request, status, observed.confirmations, minReaction).Ok?
  {
    if BeginTransfer(w, network, request, status, observed, minConfirmations, minReaction).Ok? {
      BeginNeedsGate(w, network, request, status, observed, minConfirmations, minReaction);
    }
    if BeginGate(w, network, request, status, observed, minConfirmations) {
      GateDecidesBegin(w, network, request, status, observed, minConfirmations, minReaction);
    }
  }

  lemma GateIgnoresReuse(
      w: WalletState, network: NetworkId, a: TransferRequest, b: TransferRequest, status: CoinStatus,
      observed: ObservedFunding,
      minConfirmations: u32)
    requires SameTerms(a, b)
    ensures BeginGate(w, network, a, status, observed, minConfirmations)
            == BeginGate(w, network, b, status, observed, minConfirmations)
  {
  }

  /**
   Nothing in `begin_transfer` looks at whether a request was used before: it
   takes a spent one exactly when it would take a new one.
   */
  lemma BeginIgnoresReuse(
      w: WalletState, network: NetworkId, spent: TransferRequest, unspent: TransferRequest, status: CoinStatus,
      observed: ObservedFunding, minConfirmations: u32, minReaction: u32)
    requires SameTerms(spent, unspent)
    requires w.coin.Some? && CoinOf(w).currentCap.Some? ==>
               spent.nextCapHash != CapHash(CapOf(w)) && unspent.nextCapHash != CapHash(CapOf(w))
    ensures BeginTransfer(w, network, spent, status, observed, minConfirmations, minReaction).Ok?
       <==> BeginTransfer(w, network, unspent, status, observed, minConfirmations, minReaction).Ok?
  {
    BeginIsGated(w, network, spent, status, observed, minConfirmations, minReaction);
    BeginIsGated(w, network, unspent, status, observed, minConfirmations, minReaction);
    GateIgnoresReuse(w, network, spent, unspent, status, observed, minConfirmations);
    if BeginGate(w, network, spent, status, observed, minConfirmations) {
      AttemptIgnoresReuse(CoinOf(w), MetadataOf(w), spent, unspent, status, observed.confirmations, minReaction);
    }
  }

  lemma AttemptIsGated(
      coin: WalletCoin, metadata: CoinMetadata, request: TransferRequest, status: CoinStatus, confirmations: u32,
      minReaction: u32)
    requires coin.history != [] && coin.currentCap.Some? && coin.currentHandoff.Some?
    ensures TransferAttempt(coin, metadata, request, status, confirmations, minReaction).Ok?
       <==> Last(coin.history).delay >= DELAY_STEP
            && RequireReactionMargin(confirmations, Last(coin.history).delay - DELAY_STEP,
                                     LargerMargin(minReaction, request)).Ok?
            && NextPrepared(coin, metadata, request, status, confirmations).Ok?
            && AttemptFits(metadata, coin.history, NextPrepared(coin, metadata, request, status, confirmations).value.1)
  {
    hide PrepareRecovery, JsonSize;
  }

  lemma AttemptIgnoresReuse(
      coin: WalletCoin, metadata: CoinMetadata, spent: TransferRequest, unspent: TransferRequest, status: CoinStatus,
      confirmations: u32, minReaction: u32)
    requires SameTerms(spent, unspent)
    requires coin.history != [] && coin.currentCap.Some? && coin.currentHandoff.Some?
    requires spent.nextCapHash != CapHash(coin.currentCap.value)
             && unspent.nextCapHash != CapHash(coin.currentCap.value)
    ensures TransferAttempt(coin, metadata, spent, status, confirmations, minReaction).Ok?
       <==> TransferAttempt(coin, metadata, unspent, status, confirmations, minReaction).Ok?
  {
    hide JsonSize;
    AttemptIsGated(coin, metadata, spent, status, confirmations, minReaction);
    AttemptIsGated(coin, metadata, unspent, status, confirmations, minReaction);
    if Last(coin.history).delay >= DELAY_STEP {
      PreparesWhoeverIsNamed(coin, metadata, spent, unspent, status, confirmations);
      if NextPrepared(coin, metadata, spent, status, confirmations).Ok? {
        FitsWhoeverIsPaid(NextPrepared(coin, metadata, spent, status, confirmations).value.1,
                          NextPrepared(coin, metadata, unspent, status, confirmations).value.1, coin.history, metadata);
      }
    }
  }

  lemma PreparesWhoeverIsNamed(
      coin: WalletCoin, metadata: CoinMetadata, a: TransferRequest, b: TransferRequest, status: CoinStatus,
      confirmations: u32)
    requires coin.history != [] && coin.currentCap.Some? && coin.currentHandoff.Some?
             && Last(coin.history).delay >= DELAY_STEP
    requires a.nextCapHash != CapHash(coin.currentCap.value) && b.nextCapHash != CapHash(coin.currentCap.value)
    ensures NextPrepared(coin, metadata, a, status, confirmations).Ok?
            <==> NextPrepared(coin, metadata, b, status, confirmations).Ok?
    ensures NextPrepared(coin, metadata, a, status, confirmations).Ok? ==>
              var p, q := NextPrepared(coin, metadata, a, status, confirmations).value.1,
                          NextPrepared(coin, metadata, b, status, confirmations).value.1;
              && p.metadata == q.metadata == metadata && p.delay == q.delay
              && CanonicalRecovery(metadata.outpoint, metadata.amount, p.withdrawal, p.delay) == Ok(p.tx)
              && CanonicalRecovery(metadata.outpoint, metadata.amount, q.withdrawal, q.delay) == Ok(q.tx)
  {
  }

  /** The size of a recovery does not depend on whom it pays. */
  lemma FitsWhoeverIsPaid(
      a: PreparedRecovery, b: PreparedRecovery, history: seq<SignedRecovery>, metadata: CoinMetadata)
    requires a.metadata == b.metadata == metadata && a.delay == b.delay
    requires CanonicalRecovery(metadata.outpoint, metadata.amount, a.withdrawal, a.delay) == Ok(a.tx)
    requires CanonicalRecovery(metadata.outpoint, metadata.amount, b.withdrawal, b.delay) == Ok(b.tx)
    ensures AttemptFits(metadata, history, a) == AttemptFits(metadata, history, b)
  {
    hide MetadataSize;
    var x, y := SerializationTemplate(a).value, SerializationTemplate(b).value;
    assert x.tx.inputs == y.tx.inputs;
    assert OutputListSize(x.tx.outputs) == OutputSize(x.tx.outputs[0]);
    assert OutputListSize(y.tx.outputs) == OutputSize(y.tx.outputs[0]);
    HistorySizeAppend(history, x, y);
  }
}
