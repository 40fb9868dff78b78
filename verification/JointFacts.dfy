/** Consequences of the joint agreement for one wallet and the log of its coin. */
module JointFacts {
  import opened Wrappers
  import opened Bitcoin
  import opened Enclave
  import opened Client
  import opened Timing
  import opened Transfer
  import opened Validation
  import opened Wallet
  import opened Exit
  import opened Updates
  import opened Ledger
  import opened Protocol
  import opened Agreement
  import opened Growth
  import opened AgreementUpdates

  /** A wallet with a coin, as the agreement knows it. */
  ghost predicate Known(world: World, i: nat, w: WalletState) {
    && w.coin.Some? && HasCoin(world, i, w)
    && LogOk(world, Key(CoinOf(w))) && AdoptedOk(world, CoinOf(w).keys.coinId)
    && (CoinLive(world, w) ==> LiveOk(world, CoinOf(w).keys.coinId))
    && (Responding(w) ==> ReplyOk(world, PendingEntry(w)))
  }

  /** The signer process that registered this wallet's coin is still running. */
  predicate CoinLive(world: World, w: WalletState) {
    w.coin.Some? && Live(world, CoinOf(w).keys.coinId, Key(CoinOf(w)))
  }

  /** What the signer holds for this wallet's coin ID. */
  function LiveCoin(world: World, w: WalletState): Coin {
    var id := CoinOf(w).keys.coinId;
    if id in world.coins then world.coins[id] else Coin(0, Authorization(0, CapHash(0), 0), 0, None)
  }

  function LiveStatus(world: World, w: WalletState): CoinStatus {
    var id := CoinOf(w).keys.coinId;
    if id in world.coins then world.coins[id].Status(id)
    else CoinStatus(id, Point(0), Authorization(0, CapHash(0), 0), 0)
  }

  /** The log of the key behind this wallet's coin. */
  function CoinLogOf(world: World, w: WalletState): CoinLog {
    LogFor(world, CoinOf(w))
  }

  // ---------------------------------------------------------------------------
  // The owner chain.

  /** At most 6554 signatures: each costs DELAY_STEP blocks of a delay that starts at most at 65535. */
  lemma LogIsShort(m: CoinMetadata, log: CoinLog)
    requires GoodLog(m, log)
    ensures |log.entries| <= 6554
  {
    if log.entries != [] {
      var n := |log.entries|;
      LogDelays(log, m, 0, n - 1);
      assert CanonicalEntry(m, log.entries[0]) && CanonicalEntry(m, log.entries[n - 1]);
    }
  }

  lemma KnownLogIsShort(world: World, i: nat, w: WalletState)
    requires Known(world, i, w)
    ensures |CoinLogOf(world, w).entries| <= 6554
  {
    if CoinLogOf(world, w).entries != [] {
      LogIsShort(world.meta[Key(CoinOf(w))], CoinLogOf(world, w));
    }
  }

  /** Owner `p`'s recovery matures one step per later owner after owner `q`'s. */
  predicate ExclusiveAt(log: CoinLog, p: nat, q: nat, confirmations: nat) {
    && p < q < |log.entries|
    && RecoveryOf(log.entries[p]).delay == RecoveryOf(log.entries[q]).delay + DELAY_STEP * (q - p)
    && (confirmations < RecoveryOf(log.entries[q]).delay + DELAY_STEP
        ==> !Final(RecoveryOf(log.entries[p]).delay, confirmations))
  }

  lemma KnownLogIsExclusive(world: World, i: nat, w: WalletState, p: nat, q: nat, confirmations: nat)
    requires Known(world, i, w) && p < q < |CoinLogOf(world, w).entries|
    ensures ExclusiveAt(CoinLogOf(world, w), p, q, confirmations)
  {
    LogDelays(CoinLogOf(world, w), world.meta[Key(CoinOf(w))], p, q);
  }

  // ---------------------------------------------------------------------------
  // One signature per attempt, and the count-only test.

  lemma SignedAtPosition(key: Token, log: CoinLog, coin: WalletCoin, a: RecoveryAttempt, p: nat)
    requires Chained(key, log) && FreshHandoffs(log) && AttemptOk(log, coin, a)
    requires p < |log.entries| && log.entries[p].request == a.request
    ensures p == |coin.history|
  {
    assert EntryAuthorized(key, log, p);
    if p != |coin.history| {
      PositionsDiffer(log, p, |coin.history|);
    }
  }

  /** Signed at most once, and only as the signature right after the wallet's history. */
  ghost predicate SignedAtMostOnce(log: CoinLog, coin: WalletCoin, a: RecoveryAttempt) {
    var n := |coin.history|;
    && n <= |log.entries| <= n + 1
    && forall p :: 0 <= p < |log.entries| ==> (log.entries[p].request == a.request <==> p == n)
  }

  lemma AttemptSignedOnce(world: World, i: nat, w: WalletState)
    requires Known(world, i, w) && Attempting(w)
    ensures SignedAtMostOnce(CoinLogOf(world, w), CoinOf(w), AttemptOf(w))
  {
    hide Gone;
    var log := CoinLogOf(world, w);
    forall p | 0 <= p < |log.entries| && log.entries[p].request == AttemptOf(w).request ensures p
        == |CoinOf(w).history| {
      SignedAtPosition(Key(CoinOf(w)), log, CoinOf(w), AttemptOf(w), p);
    }
  }

  /** "One signature more than expected" means: the signer's cached request is this one; otherwise it is still open. */
  ghost predicate CountTestExact(live: Coin, coin: WalletCoin, a: RecoveryAttempt) {
    var status := live.Status(coin.keys.coinId);
    && VerifyStatus(coin.keys, status).Ok?
    && AttemptCommitted(status, a).Ok?
    && (AttemptCommitted(status, a).value <==> live.last.Some? && live.last.value.0 == a.request)
    && (AttemptUncommitted(status, a) <==> !AttemptCommitted(status, a).value)
  }

  lemma CountTest(key: Token, log: CoinLog, coin: WalletCoin, a: RecoveryAttempt, live: Coin)
    requires Chained(key, log) && FreshHandoffs(log) && |log.entries| <= 6554
    requires AttemptOk(log, coin, a) && PositionOk(log, coin, a)
    requires Explains(log, coin.keys.coinId, live)
    requires coin.keys.enclave == Point(live.signingKey) && coin.keys.client != coin.keys.enclave
    ensures CountTestExact(live, coin, a)
  {
    var n := |coin.history|;
    assert n > 0 ==> EntryAuthorized(key, log, n - 1);
  }

  lemma KnownCountTest(world: World, i: nat, w: WalletState)
    requires Known(world, i, w) && Attempting(w) && CoinLive(world, w)
    ensures CountTestExact(LiveCoin(world, w), CoinOf(w), AttemptOf(w))
  {
    KnownLogIsShort(world, i, w);
    CountTest(Key(CoinOf(w)), CoinLogOf(world, w), CoinOf(w), AttemptOf(w), world.coins[CoinOf(w).keys.coinId]);
  }

  /** A committed transfer passes its re-validation whatever the chain shows; no live transfer ever mismatches. */
  lemma KnownRevalidates(
      world: World, i: nat, w: WalletState, observed: ObservedFunding, minConfirmations: u32, minReaction: u32)
    requires Known(world, i, w) && Attempting(w) && CoinLive(world, w) && Fits(w)
    requires PurposeOf(w).Transfer? && Preparing(w)
    ensures var status := LiveStatus(world, w);
            && (AttemptCommitted(status, AttemptOf(w)) == Ok(true) ==>
                  ValidatePendingTransfer(w, status, observed, minConfirmations, minReaction) == Ok(()))
            && ValidatePendingTransfer(w, status, observed, minConfirmations, minReaction) != Err(JournalMismatch)
  {
    hide Known, VerifyHistory, JsonSize;
    KnownCountTest(world, i, w);
    Revalidates(w, LiveStatus(world, w), observed, minConfirmations, minReaction);
  }

  lemma Revalidates(
      w: WalletState, status: CoinStatus, observed: ObservedFunding, minConfirmations: u32, minReaction: u32)
    requires Attempting(w) && CoinOf(w).metadata.Some?
    requires PurposeOf(w).Transfer? && Preparing(w)
    requires ValidateOutgoingRequest(w, MetadataOf(w).network, PurposeOf(w).request).Ok?
    requires VerifyStatus(CoinOf(w).keys, status).Ok? && AttemptCommitted(status, AttemptOf(w)).Ok?
    requires AttemptUncommitted(status, AttemptOf(w)) <==> !AttemptCommitted(status, AttemptOf(w)).value
    ensures AttemptCommitted(status, AttemptOf(w)).value ==>
              ValidatePendingTransfer(w, status, observed, minConfirmations, minReaction) == Ok(())
    ensures ValidatePendingTransfer(w, status, observed, minConfirmations, minReaction) != Err(JournalMismatch)
  {
  }

  // ---------------------------------------------------------------------------
  // Completion.

  /** A recorded response that is the log's newest entry always completes, whatever the chain shows meanwhile. */
  lemma TransferCompletes(world: World, i: nat, w: WalletState, ephemeral: Token, nonce: Token)
    requires Known(world, i, w) && Responding(w) && CoinLive(world, w) && Fits(w) && AtNewest(world, w)
    requires PurposeOf(w).Transfer?
    ensures CompleteTransfer(w, LiveStatus(world, w), ephemeral, nonce).Ok?
  {
    hide JsonSize;
    PendingCompletes(world, i, w);
    ResponseVerifies(world, i, w);
    var coin, a := CoinOf(w), AttemptOf(w);
    CompletedPackageFits(coin.metadata.value, coin.history, a.prepared, PurposeOf(w).request, coin.clientSecret,
                         ResponseOf(w));
    CompletesFromParts(w, LiveStatus(world, w), ephemeral, nonce);
  }

  lemma ResponseVerifies(world: World, i: nat, w: WalletState)
    requires Known(world, i, w) && Responding(w) && CoinLive(world, w) && AtNewest(world, w)
    ensures VerifyStatus(CoinOf(w).keys, LiveStatus(world, w)).Ok?
    ensures VerifySignResponse(AttemptOf(w).request, AttemptOf(w).expectedCount, LiveStatus(world, w),
                               ResponseOf(w)).Ok?
  {
    hide Gone;
    KnownLogIsShort(world, i, w);
    assert EntryAuthorized(Key(CoinOf(w)), LogFor(world, CoinOf(w)), |CoinOf(w).history|);
  }

  lemma CompletesFromParts(w: WalletState, status: CoinStatus, ephemeral: Token, nonce: Token)
    requires Responding(w) && PurposeOf(w).Transfer? && Fits(w)
    requires VerifyStatus(CoinOf(w).keys, status).Ok?
    requires VerifySignResponse(AttemptOf(w).request, AttemptOf(w).expectedCount, status, ResponseOf(w)).Ok?
    requires Completed(w).Ok? && Completed(w).value.delay == AttemptOf(w).delay
    requires CoinOf(w).withdrawalIndex.Some? && CoinOf(w).withdrawalIndex.value < |CoinOf(w).history|
    requires ValidatePlaintextSize(PayloadSize(TransferPayload(
               PurposeOf(w).request.requestId, CoinOf(w).clientSecret, ResponseOf(w).nextHandoff,
               MetadataOf(w), CoinOf(w).history + [Completed(w).value]))).Ok?
    ensures CompleteTransfer(w, status, ephemeral, nonce).Ok?
  {
    hide JsonSize, CanonicalRecovery, AttemptFits;
  }

  lemma FundingCompletes(world: World, i: nat, w: WalletState)
    requires Known(world, i, w) && Responding(w) && CoinLive(world, w) && WalletSafe(w) && AtNewest(world, w)
    requires PurposeOf(w).Fund?
    ensures CompleteFunding(w, LiveStatus(world, w)).Ok?
  {
    hide HasCoin;
    PendingCompletes(world, i, w);
    ResponseVerifies(world, i, w);
  }

  /** While the signer lives, a saved response is the genuine one. */
  lemma LiveResponseIsNewest(world: World, i: nat, w: WalletState)
    requires Known(world, i, w) && Responding(w) && CoinLive(world, w)
    ensures AtNewest(world, w)
  {
    ResponseIsNewest(world, i, w);
  }

  /** A saved response is applied by its own completion and nothing else,
  and that succeeds exactly under the coin's own key. */
  predicate AppliesExactlyIf(w: WalletState, status: CoinStatus, ephemeral: Token, nonce: Token, live: bool) {
    && (PurposeOf(w).Transfer? ==>
          (CompleteTransfer(w, status, ephemeral, nonce).Ok? <==> live) && CompleteFunding(w, status).Err?)
    && (PurposeOf(w).Fund? ==>
          (CompleteFunding(w, status).Ok? <==> live) && CompleteTransfer(w, status, ephemeral, nonce).Err?)
  }

  lemma OtherKeyNeverCompletes(w: WalletState, status: CoinStatus, ephemeral: Token, nonce: Token)
    requires Responding(w) && status.signingKey != CoinOf(w).keys.enclave
    ensures CompleteTransfer(w, status, ephemeral, nonce).Err? && CompleteFunding(w, status).Err?
  {
    assert VerifyStatus(CoinOf(w).keys, status).Err?;
  }

  lemma OnlyItsOwnCompletion(w: WalletState, status: CoinStatus, ephemeral: Token, nonce: Token)
    requires Responding(w)
    ensures PurposeOf(w).Transfer? ==> CompleteFunding(w, status).Err?
    ensures PurposeOf(w).Fund? ==> CompleteTransfer(w, status, ephemeral, nonce).Err?
  {
  }

  lemma KnownAppliesExactly(world: World, i: nat, w: WalletState, status: CoinStatus, ephemeral: Token, nonce: Token)
    requires Known(world, i, w) && Responding(w) && Fits(w) && WalletSafe(w)
    requires StatusOf(world.coins, CoinOf(w).keys.coinId) == Ok(status)
    ensures AppliesExactlyIf(w, status, ephemeral, nonce, status.signingKey == CoinOf(w).keys.enclave)
  {
    hide Known, CompleteRecovery, Fits, CompleteTransfer;
    OnlyItsOwnCompletion(w, status, ephemeral, nonce);
    if status.signingKey == CoinOf(w).keys.enclave {
      assert CoinLive(world, w) && status == LiveStatus(world, w);
      LiveResponseIsNewest(world, i, w);
      if PurposeOf(w).Transfer? {
        TransferCompletes(world, i, w, ephemeral, nonce);
      } else {
        FundingCompletes(world, i, w);
      }
    } else {
      OtherKeyNeverCompletes(w, status, ephemeral, nonce);
    }
  }

  /**
   `record_sign_response` journals what it is given. A response under another
   key, which only a restarted signer can give, is taken, and then neither
   completion ever succeeds, whatever status is shown.
   */
  lemma StrayResponseNeverCompletes(
      w: WalletState, response: SignResponse, status: CoinStatus, ephemeral: Token, nonce: Token)
    requires Attempting(w) && Preparing(w)
    requires response.signature.key != CoinOf(w).keys.enclave
    ensures RecordSignResponse(w, response).Ok?
    ensures var recorded := RecordSignResponse(w, response).value;
            && CompleteTransfer(recorded, status, ephemeral, nonce).Err?
            && CompleteFunding(recorded, status).Err?
  {
    var recorded := RecordSignResponse(w, response).value;
    assert ResponseOf(recorded) == response;
  }

  /** Delivering the pending request to the living signer: answered from the cache if committed, signed if not. */
  lemma PendingIsAnswered(world: World, i: nat, w: WalletState, handoff: Token)
    requires Known(world, i, w) && Attempting(w) && CoinLive(world, w)
    ensures var r := AttemptOf(w).request;
            var (coins, result) := SignWith(world.coins, r, handoff);
            && result.Ok?
            && (AttemptCommitted(LiveStatus(world, w), AttemptOf(w)) == Ok(true) ==>
                  coins == world.coins
                  && Entry(r, result.value) == CoinLogOf(world, w).entries[|CoinLogOf(world, w).entries| - 1])
  {
    hide Gone;
    KnownLogIsShort(world, i, w);
    KnownCountTest(world, i, w);
    var live := world.coins[CoinOf(w).keys.coinId];
    SignAnswersFromLog(CoinLogOf(world, w), CoinOf(w).keys.coinId, live, AttemptOf(w).request, handoff);
    assert world.coins[CoinOf(w).keys.coinId := live] == world.coins;
  }

  // ---------------------------------------------------------------------------
  // Histories.

  /** A full history of the coin that this wallet shows, in its own state or in the package it released. */
  function FullHistory(w: WalletState): Option<seq<SignedRecovery>> {
    if w.coin.None? then None
    else if CoinOf(w).currentCap.Some? then Some(CoinOf(w).history)
    else if CoinOf(w).outgoing.Some? then Some(OutgoingOf(w).envelope.ciphertext.payload.history)
    else None
  }

  function ShownHistory(w: WalletState): seq<SignedRecovery> {
    Or(FullHistory(w), [])
  }

  /** Every full history is a prefix of the log, and a past owner keeps exactly its own entry. */
  ghost predicate HistoryIsLogged(log: CoinLog, w: WalletState) {
    && FullHistory(w).Some? && FullHistory(w).value <= Recoveries(log.entries)
    && (w.coin.Some? && CoinOf(w).outgoing.Some? ==>
          && 2 <= |FullHistory(w).value|
          && CoinOf(w).history == [Recoveries(log.entries)[|FullHistory(w).value| - 2]])
  }

  lemma PrefixIsLogged(log: CoinLog, n: nat)
    requires n <= |log.entries|
    ensures Recoveries(log.entries[..n]) <= Recoveries(log.entries)
  {
    assert Recoveries(log.entries[..n]) == Recoveries(log.entries)[..n];
  }

  lemma HeldHistory(log: CoinLog, w: WalletState)
    requires w.coin.Some? && Holding(log, CoinOf(w))
    ensures HistoryIsLogged(log, w)
  {
    PrefixIsLogged(log, |CoinOf(w).history|);
  }

  lemma GoneHistory(log: CoinLog, w: WalletState)
    requires w.coin.Some? && Gone(log, CoinOf(w))
    ensures HistoryIsLogged(log, w)
  {
    hide RecoveryOf;
    PrefixIsLogged(log, |OutgoingOf(w).envelope.ciphertext.payload.history|);
  }

  lemma KnownHistory(world: World, i: nat, w: WalletState)
    requires Known(world, i, w)
    ensures HistoryIsLogged(CoinLogOf(world, w), w)
  {
    if CoinOf(w).currentCap.Some? {
      HeldHistory(CoinLogOf(world, w), w);
    } else {
      GoneHistory(CoinLogOf(world, w), w);
    }
  }

  lemma PrefixesCompare<T>(a: seq<T>, b: seq<T>, all: seq<T>)
    requires a <= all && b <= all
    ensures a <= b || b <= a
  {
  }

  // ---------------------------------------------------------------------------
  // Exits.

  /** The log position of the recovery this wallet owns. */
  function OwnPosition(w: WalletState): int {
    if CoinOf(w).outgoing.Some? then |OutgoingOf(w).envelope.ciphertext.payload.history| - 2
    else |CoinOf(w).history| - 1
  }

  /** A spent output passes only through a recovery of the wallet's own history. */
  lemma {:induction false} ExitSpenderIsKnown(
      coin: WalletCoin, observed: ObservedFunding, minConfirmations: u32, txid: Txid, confirmed: bool,
      saved: Option<Txid>)
    requires !observed.unspent && VerifyExitFunding(coin, observed, minConfirmations, Some(txid), confirmed, saved).Ok?
    ensures Position(coin.history, txid).Some? && coin.withdrawalIndex.Some?
    ensures Position(coin.history, txid).value <= coin.withdrawalIndex.value
    ensures confirmed ==> Position(coin.history, txid).value == coin.withdrawalIndex.value
  {
  }

  /** Where a wallet's history entry sits in the log. */
  ghost predicate SitsAt(log: CoinLog, w: WalletState, index: nat, y: int) {
    && index < |CoinOf(w).history| && 0 <= y < |log.entries| && CoinOf(w).history[index] == RecoveryOf(log.entries[y])
    && (CoinOf(w).withdrawalIndex.Some? && index <= CoinOf(w).withdrawalIndex.value ==> y <= OwnPosition(w))
    && (CoinOf(w).withdrawalIndex == Some(index) || CoinOf(w).outgoing.Some? ==> y == OwnPosition(w))
  }

  lemma HeldPosition(log: CoinLog, w: WalletState, index: nat)
    requires w.coin.Some? && Holding(log, CoinOf(w)) && index < |CoinOf(w).history|
    ensures SitsAt(log, w, index, index)
  {
  }

  lemma GonePosition(log: CoinLog, w: WalletState, index: nat)
    requires w.coin.Some? && Gone(log, CoinOf(w)) && index < |CoinOf(w).history|
    ensures SitsAt(log, w, index, OwnPosition(w))
  {
  }

  lemma KeptPosition(world: World, i: nat, w: WalletState, index: nat)
    requires Known(world, i, w) && index < |CoinOf(w).history|
    ensures SitsAt(CoinLogOf(world, w), w, index, if CoinOf(w).outgoing.Some? then OwnPosition(w) else index)
  {
    if CoinOf(w).currentCap.Some? {
      HeldPosition(CoinLogOf(world, w), w, index);
    } else {
      GonePosition(CoinLogOf(world, w), w, index);
    }
  }

  lemma TxidDecidesPosition(world: World, i: nat, w: WalletState, x: nat, y: nat)
    requires Known(world, i, w) && x < |CoinLogOf(world, w).entries| && y < |CoinLogOf(world, w).entries|
    requires ComputeTxid(RecoveryOf(CoinLogOf(world, w).entries[x]).tx)
             == ComputeTxid(RecoveryOf(CoinLogOf(world, w).entries[y]).tx)
    ensures x == y
  {
    var key := Key(CoinOf(w));
    if x < y {
      LogTxidsAreDistinct(world.meta[key], key, CoinLogOf(world, w), x, y);
    } else if y < x {
      LogTxidsAreDistinct(world.meta[key], key, CoinLogOf(world, w), y, x);
    }
  }

  lemma SpenderIsOwnOrEarlier(
      world: World, i: nat, w: WalletState, observed: ObservedFunding, minConfirmations: u32, spender: Option<Txid>,
      confirmed: bool, saved: Option<Txid>)
      returns (x: nat)
    requires Known(world, i, w) && !observed.unspent
    requires VerifyExitFunding(CoinOf(w), observed, minConfirmations, spender, confirmed, saved).Ok?
    ensures SpentBySigned(CoinLogOf(world, w), w, spender, confirmed, x)
  {
    assert spender.Some?;
    ExitSpenderIsKnown(CoinOf(w), observed, minConfirmations, spender.value, confirmed, saved);
    var index := Position(CoinOf(w).history, spender.value).value;
    KeptPosition(world, i, w, index);
    x := if CoinOf(w).outgoing.Some? then OwnPosition(w) else index;
    forall y: nat | SignedAs(CoinLogOf(world, w), y, spender) ensures y == x {
      TxidDecidesPosition(world, i, w, x, y);
    }
  }

  /** The recovery signed at this position has this txid. */
  predicate SignedAs(log: CoinLog, y: nat, spender: Option<Txid>) {
    y < |log.entries| && spender == Some(ComputeTxid(RecoveryOf(log.entries[y]).tx))
  }

  /** The spender is the recovery signed at position `x` alone: the wallet's own or an earlier one,
  a confirmed one its own. */
  ghost predicate SpentBySigned(log: CoinLog, w: WalletState, spender: Option<Txid>, confirmed: bool, x: nat) {
    && SignedAs(log, x, spender) && (forall y: nat :: SignedAs(log, y, spender) ==> y == x)
    && x <= OwnPosition(w)
    && (confirmed || CoinOf(w).outgoing.Some? ==> x == OwnPosition(w))
  }
}
