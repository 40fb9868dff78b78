/**
 The main results about the joint system. Each holds in every reachable state:
 after any interleaving of wallet commands, crashes, lost, delayed or repeated
 messages, signer restarts and chain observations. The remaining main result,
 that an interrupted command can always be rerun to its end, is
 Resume.RerunApplies.
 */
module JointTheorems {
  import opened Wrappers
  import opened Bitcoin
  import opened Enclave
  import opened Client
  import opened Transfer
  import opened Validation
  import opened Wallet
  import opened Exit
  import opened Driver
  import opened Updates
  import opened Ledger
  import opened Protocol
  import opened Agreement
  import opened AgreementUpdates
  import opened AgreementWallet
  import opened AgreementSteps
  import opened Fitting
  import opened JointFacts
  import opened Resume
  import opened Handover
  import opened Sources

  predicate IsWallet(sys: System, i: nat, w: WalletState) {
    i < |sys.nodes| && i < |sys.cfgs| && NodeOf(sys, i).durable.wallet == w
  }

  lemma WalletKnown(sys: System, i: nat, w: WalletState)
    requires Reachable(sys) && IsWallet(sys, i, w) && w.coin.Some?
    ensures Known(sys.world, i, w)
  {
    hide Reachable, Known;
    KnownWallet(sys, i, w, NodeOf(sys, i).session);
  }

  lemma WalletAgrees(sys: System, i: nat, w: WalletState)
    requires Reachable(sys) && IsWallet(sys, i, w)
    ensures WalletOk(sys.world, i, w)
  {
    hide Reachable, AllSafe, WalletOk, WorldOk, MessagesOk;
    ReachableAgrees(sys);
    assert WalletOk(sys.world, i, NodeOf(sys, i).durable.wallet);
  }

  // ---------------------------------------------------------------------------
  // Exactly-once signing.

  /** Over all runs of crashes, lost replies and reruns,
  a journaled attempt advances the signer by at most one signature. */
  lemma OneSignaturePerAttempt(sys: System, i: nat, w: WalletState)
    requires Reachable(sys) && IsWallet(sys, i, w) && Attempting(w)
    ensures SignedAtMostOnce(CoinLogOf(sys.world, w), CoinOf(w), AttemptOf(w))
  {
    hide Reachable, Known;
    WalletKnown(sys, i, w);
    AttemptSignedOnce(sys.world, i, w);
  }

  /** The count-only test is exact while the signer lives. */
  lemma CountTestIsExact(sys: System, i: nat, w: WalletState)
    requires Reachable(sys) && IsWallet(sys, i, w) && Attempting(w) && CoinLive(sys.world, w)
    ensures CountTestExact(LiveCoin(sys.world, w), CoinOf(w), AttemptOf(w))
  {
    hide Reachable, Known;
    WalletKnown(sys, i, w);
    KnownCountTest(sys.world, i, w);
  }

  /**
   Once its attempt is signed, a transfer passes re-validation on any chain
   observation; and "does not match live enclave state" is unreachable while
   the signer lives.
   */
  lemma CommittedTransferRevalidates(
      sys: System, i: nat, w: WalletState, observed: ObservedFunding, minConfirmations: u32, minReaction: u32)
    requires Reachable(sys) && IsWallet(sys, i, w) && Attempting(w) && CoinLive(sys.world, w)
    requires PurposeOf(w).Transfer? && Preparing(w)
    ensures var status := LiveStatus(sys.world, w);
            && (AttemptCommitted(status, AttemptOf(w)) == Ok(true) ==>
                  ValidatePendingTransfer(w, status, observed, minConfirmations, minReaction) == Ok(()))
            && ValidatePendingTransfer(w, status, observed, minConfirmations, minReaction) != Err(JournalMismatch)
  {
    hide Reachable, Known, NativeValid, ValidatePendingTransfer, Fits;
    WalletKnown(sys, i, w);
    SafeWallet(sys, i, w, NodeOf(sys, i).session);
    KnownRevalidates(sys.world, i, w, observed, minConfirmations, minReaction);
  }

  /** The living signer answers the journaled request: from its cache if it signed it already,
  with one new signature if not. */
  lemma SignerAnswersPending(sys: System, i: nat, w: WalletState, handoff: Token)
    requires Reachable(sys) && IsWallet(sys, i, w) && Attempting(w) && CoinLive(sys.world, w)
    ensures var (coins, result) := SignWith(sys.world.coins, AttemptOf(w).request, handoff);
            && result.Ok?
            && (AttemptCommitted(LiveStatus(sys.world, w), AttemptOf(w)) == Ok(true) ==> coins == sys.world.coins)
  {
    hide Reachable, Known;
    WalletKnown(sys, i, w);
    PendingIsAnswered(sys.world, i, w, handoff);
  }

  /**
   When a saved response can be applied, for every status the signer shows:
   exactly if the signer that registered the coin is still the one answering.
   The caller sees that in the status, before the call. Restarts break it for a
   stray response and for a genuine one alike.
   */
  lemma SavedResponseApplies(sys: System, i: nat, w: WalletState, status: CoinStatus, ephemeral: Token, nonce: Token)
    requires Reachable(sys) && IsWallet(sys, i, w) && Responding(w)
    requires StatusOf(sys.world.coins, CoinOf(w).keys.coinId) == Ok(status)
    ensures AppliesExactlyIf(w, status, ephemeral, nonce, status.signingKey == CoinOf(w).keys.enclave)
  {
    hide Reachable, Known, NativeValid, AppliesExactlyIf, Fits;
    WalletKnown(sys, i, w);
    SafeWallet(sys, i, w, NodeOf(sys, i).session);
    KnownAppliesExactly(sys.world, i, w, status, ephemeral, nonce);
  }

  // ---------------------------------------------------------------------------
  // Ownership.

  /** No capability is held by two wallets. */
  lemma AtMostOneHolder(sys: System, i: nat, w: WalletState, j: nat, other: WalletState, id: Token, cap: Token)
    requires Reachable(sys) && IsWallet(sys, i, w) && IsWallet(sys, j, other)
    requires Holds(w, id, cap) && Holds(other, id, cap)
    ensures i == j
  {
    hide *;
    WalletAgrees(sys, i, w);
    WalletAgrees(sys, j, other);
    OneHolder(sys.world, i, w, j, other, id, id, cap);
  }

  /** The commitment this coin's capability and handoff open. */
  function ShownAuth(coin: WalletCoin): Authorization {
    Authorization(coin.keys.coinId, CapHash(Or(coin.currentCap, 0)), Or(coin.currentHandoff, INITIAL_HANDOFF))
  }

  /** A wallet that shows a capability and nothing pending is the one the signer will listen to. */
  lemma ShownCapabilityIsLive(sys: System, i: nat, w: WalletState)
    requires Reachable(sys) && IsWallet(sys, i, w) && Active(w) && w.pending.None?
    ensures CoinOf(w).currentHandoff.Some? && LiveAuth(CoinLogOf(sys.world, w)) == ShownAuth(CoinOf(w))
    ensures CoinLive(sys.world, w) ==> LiveStatus(sys.world, w).authorization == ShownAuth(CoinOf(w))
  {
    hide Reachable;
    WalletKnown(sys, i, w);
  }

  ghost predicate Held(sys: System, id: Token, cap: Token) {
    exists i :: 0 <= i < |sys.nodes| && Holds(NodeOf(sys, i).durable.wallet, id, cap)
  }

  /** A coin ID some wallet took up, with the log of the key it took. */
  predicate TakenId(world: World, id: Token) {
    id in world.adopted && world.adopted[id] in world.logs
  }

  /**
   Exactly one wallet holds the capability that opens the live authorization,
   if and only if that capability was not spent before. (A sender that signs
   to an already consumed request puts a spent capability back in force, and
   then nobody can move the coin: see Handover.BeginIgnoresReuse.)
   */
  lemma OneLiveOwner(sys: System, id: Token)
    requires Reachable(sys) && TakenId(sys.world, id)
    ensures Held(sys, id, LiveCap(sys.world, id)) <==> !UsedCap(LogOfId(sys.world, id), LiveCap(sys.world, id))
  {
    hide *;
    ReachableAgrees(sys);
    OneLiveOwnerAgreed(sys, id);
  }

  lemma OneLiveOwnerAgreed(sys: System, id: Token)
    requires Agrees(sys) && TakenId(sys.world, id)
    ensures Held(sys, id, LiveCap(sys.world, id)) <==> !UsedCap(LogOfId(sys.world, id), LiveCap(sys.world, id))
  {
    hide NodesOk, AdoptedOk, AllSent, LogOk;
    var key, cap := sys.world.adopted[id], LiveCap(sys.world, id);
    assert HolderOk(sys.world, sys.nodes, id) && AdoptedOk(sys.world, id) && LogOk(sys.world, key);
    assert NodeOf(sys, sys.world.owner[cap]) == sys.nodes[sys.world.owner[cap]];
    if Held(sys, id, cap) {
      var i :| 0 <= i < |sys.nodes| && Holds(NodeOf(sys, i).durable.wallet, id, cap);
      HolderSpentNothing(sys, i, NodeOf(sys, i).durable.wallet, id);
    }
  }

  lemma HolderSpentNothing(sys: System, i: nat, w: WalletState, id: Token)
    requires Agrees(sys) && i < |sys.nodes| && NodeOf(sys, i).durable.wallet == w && TakenId(sys.world, id)
    requires Holds(w, id, LiveCap(sys.world, id))
    ensures !UsedCap(LogOfId(sys.world, id), LiveCap(sys.world, id))
  {
    hide MessagesOk;
    assert WalletOk(sys.world, i, NodeOf(sys, i).durable.wallet);
    if w.coin.None? {
      CoinlessSpentNothing(sys, i, sys.world.adopted[id], LiveCap(sys.world, id));
    } else {
      AgreedIsKnown(sys, i, w);
      SpentIsNotHeld(sys.world, i, w, LiveCap(sys.world, id));
    }
  }

  /** Some recovery of this history pays this key. */
  predicate Pays(history: seq<SignedRecovery>, key: PubKey) {
    exists p :: 0 <= p < |history| && history[p].withdrawal == key
  }

  lemma LogOfCoin(sys: System, i: nat, w: WalletState)
    requires Reachable(sys) && IsWallet(sys, i, w) && w.coin.Some?
    ensures Known(sys.world, i, w) && Agrees(sys) && AllSourced(sys)
    ensures TakenId(sys.world, CoinOf(w).keys.coinId)
    ensures LogOfId(sys.world, CoinOf(w).keys.coinId) == CoinLogOf(sys.world, w)
  {
    hide Reachable, AllSourced, Agrees, AllSafe;
    ReachableAgrees(sys);
    ReachableSourced(sys);
    WalletKnown(sys, i, w);
  }

  /**
   Whether a request was used before can be read by whoever is asked to sign
   to it, before `begin_transfer`: exactly if a recovery in its own history
   already pays the request's withdrawal key. (A request for the capability the
   wallet itself shows is refused.)
   */
  lemma ReuseIsVisible(sys: System, i: nat, w: WalletState, request: TransferRequest)
    requires Reachable(sys) && IsWallet(sys, i, w) && Active(w) && w.pending.None?
    requires request in sys.world.requests && request.nextCapHash != CapHash(CapOf(w))
    ensures UsedCap(CoinLogOf(sys.world, w), request.nextCapHash.cap) <==> Pays(CoinOf(w).history, request.withdrawal)
  {
    hide Reachable, AllSourced, Agrees, AdoptedOk;
    LogOfCoin(sys, i, w);
    SpentWhenPaid(sys, CoinOf(w).keys.coinId, request);
    if CoinOf(w).history != [] {
      PaysWhenNamed(sys, CoinOf(w).keys.coinId, |CoinOf(w).history| - 1, request);
    }
    HistoryPays(sys.world, i, w, request);
  }

  lemma HistoryPays(world: World, i: nat, w: WalletState, request: TransferRequest)
    requires Known(world, i, w) && Active(w) && w.pending.None? && request.nextCapHash != CapHash(CapOf(w))
    requires var log := CoinLogOf(world, w);
             log.entries != [] ==>
               var e := log.entries[|log.entries| - 1];
               PayeeOf(e) == request.withdrawal <==> e.request.nextCapHash == request.nextCapHash
    ensures var log := CoinLogOf(world, w);
            Pays(CoinOf(w).history, request.withdrawal)
            <==> PaidBefore(log, |log.entries| - 1, request.withdrawal)
  {
    hide RecoveryTx, AdoptedOk, Gone, CoinBase, LogOk, AcceptedOk, AttemptOk;
    var log, history := CoinLogOf(world, w), CoinOf(w).history;
    assert forall p :: 0 <= p < |history| ==> history[p].withdrawal == PayeeOf(log.entries[p]);
  }

  /** The newest recovery pays a key that no earlier one pays. */
  predicate NewestPayeeIsNew(history: seq<SignedRecovery>) {
    history != [] ==> !Pays(history[..|history| - 1], Last(history).withdrawal)
  }

  /**
   Whether some wallet can move the coin can be read off any history that is as
   long as the signer's count, in a wallet or in a released package: exactly if
   its newest recovery pays a key that no earlier one pays.
   */
  lemma OwnerIsVisible(sys: System, i: nat, w: WalletState)
    requires Reachable(sys) && IsWallet(sys, i, w) && CoinLive(sys.world, w)
    ensures FullHistory(w).Some?
    ensures var id, history := CoinOf(w).keys.coinId, ShownHistory(w);
            LiveStatus(sys.world, w).count == |history| ==>
              (Held(sys, id, LiveCap(sys.world, id)) <==> NewestPayeeIsNew(history))
  {
    hide Reachable, AllSourced, Agrees, Known, Held, PaidBefore, Pays;
    LogOfCoin(sys, i, w);
    KnownHistory(sys.world, i, w);
    KnownCount(sys.world, i, w);
    if LiveStatus(sys.world, w).count == |FullHistory(w).value| {
      OneLiveOwner(sys, CoinOf(w).keys.coinId);
      NewestIsSpent(sys, CoinOf(w).keys.coinId);
      NewestPays(CoinLogOf(sys.world, w), FullHistory(w).value);
    }
  }

  lemma KnownCount(world: World, i: nat, w: WalletState)
    requires Known(world, i, w) && CoinLive(world, w)
    ensures LiveStatus(world, w).count == |CoinLogOf(world, w).entries|
  {
  }

  /** The live capability was spent exactly if an earlier recovery pays the newest payee. */
  lemma NewestIsSpent(sys: System, id: Token)
    requires Agrees(sys) && AllSourced(sys) && id in sys.world.adopted
    ensures var log := LogOfId(sys.world, id);
            UsedCap(log, LiveCap(sys.world, id))
            <==> log.entries != []
                 && PaidBefore(log, |log.entries| - 1, PayeeOf(log.entries[|log.entries| - 1]))
  {
    hide Agrees, AllSourced;
    var log := LogOfId(sys.world, id);
    LogIsChained(sys, id);
    if log.entries != [] {
      var n := |log.entries|;
      var e := log.entries[n - 1];
      assert EntryAuthorized(sys.world.adopted[id], log, n - 1);
      if n > 1 {
        NewestIsSourced(sys, id);
        var r :| r in sys.world.requests && Names(r, e);
        SpentWhenPaid(sys, id, r);
      }
    }
  }

  lemma NewestIsSourced(sys: System, id: Token)
    requires AllSourced(sys) && id in sys.world.adopted && |LogOfId(sys.world, id).entries| > 1
    ensures var log := LogOfId(sys.world, id); Requested(sys.world, log.entries[|log.entries| - 1])
  {
    var log := LogOfId(sys.world, id);
    var n := |log.entries|;
    assert EntrySourced(sys.world, sys.world.owner[log.init.cap], n - 1, log.entries[n - 1]);
  }

  lemma NewestPays(log: CoinLog, history: seq<SignedRecovery>)
    requires history == Recoveries(log.entries)
    ensures NewestPayeeIsNew(history)
       <==> !(log.entries != [] && PaidBefore(log, |log.entries| - 1, PayeeOf(log.entries[|log.entries| - 1])))
  {
    assert forall p :: 0 <= p < |history| ==> history[p].withdrawal == PayeeOf(log.entries[p]);
  }

  // ---------------------------------------------------------------------------
  // Histories.

  /**
   Every full history, in a wallet or in a released package, is a prefix of
   what the signer signed; what a past owner keeps is the entry at its own
   position.
   */
  lemma HistoryIsSigned(sys: System, i: nat, w: WalletState)
    requires Reachable(sys) && IsWallet(sys, i, w) && w.coin.Some?
    ensures HistoryIsLogged(CoinLogOf(sys.world, w), w)
  {
    hide *;
    WalletKnown(sys, i, w);
    KnownHistory(sys.world, i, w);
  }

  /** So any two histories of one coin agree. */
  lemma HistoriesAgree(sys: System, i: nat, w: WalletState, j: nat, other: WalletState)
    requires Reachable(sys) && IsWallet(sys, i, w) && IsWallet(sys, j, other)
    requires w.coin.Some? && other.coin.Some? && CoinOf(w).keys.coinId == CoinOf(other).keys.coinId
    ensures FullHistory(w).Some? && FullHistory(other).Some?
    ensures ShownHistory(w) <= ShownHistory(other) || ShownHistory(other) <= ShownHistory(w)
  {
    hide Reachable;
    HistoryIsSigned(sys, i, w);
    HistoryIsSigned(sys, j, other);
    SameKey(sys, i, w, j, other);
    PrefixesCompare(FullHistory(w).value, FullHistory(other).value, Recoveries(CoinLogOf(sys.world, w).entries));
  }

  lemma SameKey(sys: System, i: nat, w: WalletState, j: nat, other: WalletState)
    requires Reachable(sys) && IsWallet(sys, i, w) && IsWallet(sys, j, other)
    requires w.coin.Some? && other.coin.Some? && CoinOf(w).keys.coinId == CoinOf(other).keys.coinId
    ensures Key(CoinOf(w)) == Key(CoinOf(other))
  {
    hide Reachable;
    WalletKnown(sys, i, w);
    WalletKnown(sys, j, other);
  }

  /**
   Over the whole chain of owners delays fall by exactly one step per owner,
   so below the newest delay plus one step no earlier recovery is final, and
   a coin changes hands at most 6553 times.
   */
  lemma OwnerChainIsExclusive(sys: System, i: nat, w: WalletState, p: nat, q: nat, confirmations: nat)
    requires Reachable(sys) && IsWallet(sys, i, w) && w.coin.Some?
    ensures |CoinLogOf(sys.world, w).entries| <= 6554
    ensures p < q < |CoinLogOf(sys.world, w).entries| ==> ExclusiveAt(CoinLogOf(sys.world, w), p, q, confirmations)
  {
    hide *;
    WalletKnown(sys, i, w);
    KnownLogIsShort(sys.world, i, w);
    if p < q < |CoinLogOf(sys.world, w).entries| {
      KnownLogIsExclusive(sys.world, i, w, p, q, confirmations);
    }
  }

  // ---------------------------------------------------------------------------
  // Handing over.

  /** A released package addressed to wallet `j`, which has not accepted anything yet. */
  predicate AddressedTo(sys: System, s: nat, w: WalletState, envelope: TransferEnvelope) {
    && (s, envelope) in sys.world.packages
    && w.coin.None? && w.incoming.Some? && IncomingOf(w).request == envelope.ciphertext.aad
  }

  lemma AddressedIsInTransit(
      sys: System, s: nat, sender: WalletState, j: nat, w: WalletState, envelope: TransferEnvelope)
    requires Reachable(sys) && IsWallet(sys, s, sender) && IsWallet(sys, j, w) && AddressedTo(sys, s, w, envelope)
    ensures InTransit(sys.world, s, sender, j, w, envelope)
  {
    hide Reachable, AllSafe, NativeValid, Agrees, InTransit, Fits;
    ReachableAgrees(sys);
    SafeWallet(sys, s, sender, NodeOf(sys, s).session);
    AgreedInTransit(sys, s, sender, j, w, envelope);
  }

  lemma AgreedInTransit(sys: System, s: nat, sender: WalletState, j: nat, w: WalletState, envelope: TransferEnvelope)
    requires Agrees(sys) && IsWallet(sys, s, sender) && IsWallet(sys, j, w) && AddressedTo(sys, s, w, envelope)
    requires Fits(sender)
    ensures InTransit(sys.world, s, sender, j, w, envelope)
  {
    assert PackageOk(sys.nodes, (s, envelope));
    assert WalletOk(sys.world, s, NodeOf(sys, s).durable.wallet)
        && WalletOk(sys.world, j, NodeOf(sys, j).durable.wallet);
    AgreedIsKnown(sys, s, sender);
    CoinlessSpentNothing(sys, j, Key(CoinOf(sender)), IncomingOf(w).cap);
  }

  /** The package is taken exactly if the chain allows it, and taken again it changes nothing. */
  ghost predicate AcceptsOnce(
      w: WalletState, envelope: TransferEnvelope, status: CoinStatus, observed: ObservedFunding, minConfirmations: u32,
      minReaction: u32)
  {
    var request := IncomingOf(w).request;
    var result := AcceptTransfer(w, request.network, request, envelope, status, observed, minConfirmations,
                                 minReaction);
    && envelope.ciphertext.payload.history != []
    && (result.Ok? <==> ChainAllows(request, envelope.ciphertext.payload, observed, minConfirmations, minReaction))
    && (result.Ok? ==>
          && result.value.1 && AcceptedFrom(w, request, envelope, result.value.0)
          && AcceptTransfer(result.value.0, request.network, request, envelope, status, observed, minConfirmations,
                            minReaction)
             == Ok((result.value.0, false)))
  }

  /**
   Transfer completeness: while the signer lives, a released package is
   accepted by the wallet that requested it exactly when the chain shows its
   funding unspent and deep enough and the newest delay clears the larger
   margin; accepting it again is a no-op.
   */
  lemma PackageIsAccepted(
      sys: System, s: nat, sender: WalletState, j: nat, w: WalletState, envelope: TransferEnvelope,
      observed: ObservedFunding, minConfirmations: u32, minReaction: u32)
    requires Reachable(sys) && IsWallet(sys, s, sender) && IsWallet(sys, j, w) && AddressedTo(sys, s, w, envelope)
    requires sender.coin.Some? && CoinLive(sys.world, sender)
    ensures AcceptsOnce(w, envelope, LiveStatus(sys.world, sender), observed, minConfirmations, minReaction)
  {
    hide *;
    AddressedIsInTransit(sys, s, sender, j, w, envelope);
    AcceptedAndAgain(sys.world, s, sender, j, w, envelope, observed, minConfirmations, minReaction);
  }

  lemma AcceptedAndAgain(
      world: World, s: nat, sender: WalletState, j: nat, w: WalletState, envelope: TransferEnvelope,
      observed: ObservedFunding, minConfirmations: u32, minReaction: u32)
    requires InTransit(world, s, sender, j, w, envelope) && CoinLive(world, sender)
    ensures AcceptsOnce(w, envelope, LiveStatus(world, sender), observed, minConfirmations, minReaction)
  {
    hide InTransit, VerifyHistory, DecryptTransfer;
    PackageAccepted(world, s, sender, j, w, envelope, observed, minConfirmations, minReaction);
    var request, status := IncomingOf(w).request, LiveStatus(world, sender);
    var result := AcceptTransfer(w, request.network, request, envelope, status, observed, minConfirmations,
                                 minReaction);
    if result.Ok? {
      AcceptAgainIsNoOp(w, request, envelope, result.value.0, request.network, status, observed, minConfirmations,
                        minReaction);
    }
  }

  // ---------------------------------------------------------------------------
  // Exits.

  /**
   Whoever spent the funding output, `verify_exit_funding` lets a wallet go on
   only if the spender is exactly one of the recoveries signed for this coin,
   the wallet's own or an earlier owner's; a confirmed spend only if it is its
   own; and a past owner never against a newer one.
   */
  lemma ExitOnlyAgainstOlder(
      sys: System, i: nat, w: WalletState, observed: ObservedFunding, minConfirmations: u32, spender: Option<Txid>,
      confirmed: bool, saved: Option<Txid>)
      returns (x: nat)
    requires Reachable(sys) && IsWallet(sys, i, w) && w.coin.Some? && !observed.unspent
    requires VerifyExitFunding(CoinOf(w), observed, minConfirmations, spender, confirmed, saved).Ok?
    ensures SpentBySigned(CoinLogOf(sys.world, w), w, spender, confirmed, x)
  {
    hide *;
    WalletKnown(sys, i, w);
    x := SpenderIsOwnOrEarlier(sys.world, i, w, observed, minConfirmations, spender, confirmed, saved);
  }
}
