/** Every wallet update keeps the wallet in agreement with the log of its coin. */
module AgreementUpdates {
  import opened Wrappers
  import opened Bitcoin
  import opened Enclave
  import opened Client
  import opened Transfer
  import opened Validation
  import opened Funding
  import opened Wallet
  import opened Driver
  import opened Updates
  import opened Ledger
  import opened Protocol
  import opened Agreement
  import opened Growth

  /** What the rest of the system may rely on when a wallet moves from `w` to `w'`. */
  ghost predicate Carries(a: World, w: WalletState, w': WalletState) {
    && (w.coin.Some? ==>
          && w'.coin.Some? && CoinOf(w').keys == CoinOf(w).keys
          && CoinOf(w').acceptedRequest == CoinOf(w).acceptedRequest
          && (CoinOf(w).outgoing.Some? ==> CoinOf(w').outgoing == CoinOf(w).outgoing)
          && (Active(w') ==> Active(w)))
    && (Active(w) && w'.coin.Some? && CoinOf(w').currentCap != CoinOf(w).currentCap ==>
          Key(CoinOf(w)) in a.logs && UsedCap(LogFor(a, CoinOf(w)), CapOf(w)))
    && (w.incoming.Some? ==>
          || w'.incoming == w.incoming
          || (w'.coin.Some? && CoinOf(w').acceptedRequest == Some(IncomingOf(w).request)
              && CoinOf(w').currentCap == Some(IncomingOf(w).cap)
              && CoinOf(w').keys.coinId == IncomingOf(w).request.coinId))
    && (PendingSignRequest(w).Ok? ==>
          || PendingSignRequest(w') == PendingSignRequest(w)
          || (w.coin.Some? && Key(CoinOf(w)) in a.logs && InLog(LogFor(a, CoinOf(w)), PendingSignRequest(w).value)))
    && (w.pending.Some? && w.pending.value.PendingRecovery? && PurposeOf(w).Fund? ==>
          || (w'.pending.Some? && w'.pending.value.PendingRecovery? && PurposeOf(w') == PurposeOf(w))
          || (w'.coin.Some? && CoinOf(w').currentCap == Some(PurposeOf(w).nextCap)))
  }

  /** Saving `w'` only adds history. */
  ghost predicate Saved(a: World, b: World, w': WalletState) {
    && Grows(a, b)
    && b == a.(nextToken := b.nextToken, owner := b.owner, adopted := Adopt(a.adopted, w'),
               meta := NoteFunding(a.meta, w'))
  }

  lemma BeginRegisterAgrees(
      cfg: Config, secret: Token, a: World, b: World, i: nat, w: WalletState, u: WalletUpdate, w': WalletState)
    requires u.BeginRegister? && WalletOk(a, i, w) && OpOk(a, i, w, WalletOp(u))
    requires ApplyWallet(cfg, secret, w, u) == Ok(w') && Saved(a, b, w')
    ensures WalletOk(b, i, w') && Carries(a, w, w')
  {
    hide HasCoin;
  }

  lemma FinishRegisterAgrees(
      cfg: Config, secret: Token, a: World, b: World, i: nat, w: WalletState, u: WalletUpdate, w': WalletState)
    requires u.FinishRegister? && WalletOk(a, i, w) && OpOk(a, i, w, WalletOp(u))
    requires ApplyWallet(cfg, secret, w, u) == Ok(w') && Saved(a, b, w')
    requires a.logs[u.status.signingKey.secret].entries == []
    requires u.status.signingKey.secret !in a.meta
    ensures WalletOk(b, i, w') && Carries(a, w, w')
    ensures w.coin.None? && CoinOf(w').keys.coinId !in a.adopted && CoinOf(w').keys.enclave == u.status.signingKey
  {
    hide BeginTransfer, AcceptTransfer, CompleteTransfer;
    var log := a.logs[u.status.signingKey.secret];
    assert log.entries[..0] == [];
    assert Recoveries([]) == [];
  }

  lemma AskAgrees(
      cfg: Config, secret: Token, a: World, b: World, i: nat, w: WalletState, u: WalletUpdate, w': WalletState)
    requires u.Ask? && WalletOk(a, i, w) && OpOk(a, i, w, WalletOp(u))
    requires ApplyWallet(cfg, secret, w, u) == Ok(w') && Saved(a, b, w')
    ensures WalletOk(b, i, w') && Carries(a, w, w')
  {
    hide HasCoin;
  }

  lemma RecordShape(cfg: Config, secret: Token, w: WalletState, u: WalletUpdate, w': WalletState)
    requires u.Record? && ApplyWallet(cfg, secret, w, u) == Ok(w')
    ensures w.pending.Some? && w.pending.value.PendingRecovery?
    ensures w' == w
         || (Preparing(w)
             && w' == w.(pending := Some(PendingRecovery(PurposeOf(w), Responded(AttemptOf(w), u.response)))))
  {
  }

  /** A response that was really given is recorded. */
  lemma ResponseRecorded(a: World, b: World, i: nat, w: WalletState, w': WalletState, response: SignResponse)
    requires w.coin.Some? && HasCoin(a, i, w) && Saved(a, b, w')
    requires w.pending.Some? && w.pending.value.PendingRecovery? && Preparing(w)
    requires Entry(AttemptOf(w).request, response) in a.replies
    requires w' == w.(pending := Some(PendingRecovery(PurposeOf(w), Responded(AttemptOf(w), response))))
    ensures WalletOk(b, i, w') && Carries(a, w, w')
  {
    hide AttemptOk, Grows, Holding;
    WalletGrows(a, b, i, w);
  }

  lemma RecordAgrees(
      cfg: Config, secret: Token, a: World, b: World, i: nat, w: WalletState, u: WalletUpdate, w': WalletState)
    requires u.Record? && WalletOk(a, i, w) && OpOk(a, i, w, WalletOp(u))
    requires ApplyWallet(cfg, secret, w, u) == Ok(w') && Saved(a, b, w')
    ensures WalletOk(b, i, w') && Carries(a, w, w')
  {
    hide ApplyWallet, PendingOk, RecoveryOf, Grows, Gone;
    RecordShape(cfg, secret, w, u, w');
    if w' == w {
      WalletGrows(a, b, i, w);
    } else {
      ResponseRecorded(a, b, i, w, w', u.response);
    }
  }

  lemma MarkBroadcastShape(cfg: Config, secret: Token, w: WalletState, u: WalletUpdate)
    requires u.MarkBroadcast? && ApplyWallet(cfg, secret, w, u).Ok?
    ensures w.coin.Some? && CoinOf(w).funding.Some?
    ensures ApplyWallet(cfg, secret, w, u).value
         == w.(coin := Some(CoinOf(w).(funding := Some(FundingOf(w).(stage := FundingBroadcast)))))
  {
  }

  /** Only the funding journal moved. */
  lemma FundingMoved(a: World, b: World, i: nat, w: WalletState, funding: Option<FundingJournal>)
    requires w.coin.Some? && WalletOk(a, i, w)
    requires Saved(a, b, w.(coin := Some(CoinOf(w).(funding := funding))))
    ensures WalletOk(b, i, w.(coin := Some(CoinOf(w).(funding := funding))))
         && Carries(a, w, w.(coin := Some(CoinOf(w).(funding := funding))))
  {
    hide RecoveryOf, CanonicalRecovery, NoCoin;
    WalletGrows(a, b, i, w);
  }

  lemma MarkBroadcastAgrees(
      cfg: Config, secret: Token, a: World, b: World, i: nat, w: WalletState, u: WalletUpdate, w': WalletState)
    requires u.MarkBroadcast? && WalletOk(a, i, w)
    requires ApplyWallet(cfg, secret, w, u) == Ok(w') && Saved(a, b, w')
    ensures WalletOk(b, i, w') && Carries(a, w, w')
  {
    hide *;
    MarkBroadcastShape(cfg, secret, w, u);
    FundingMoved(a, b, i, w, Some(FundingOf(w).(stage := FundingBroadcast)));
  }

  // ---------------------------------------------------------------------------
  // Preparing attempts.

  /** A prepared request asks for the canonical recovery under the status it was prepared with. */
  lemma PreparedIsCanonical(
      m: CoinMetadata, status: CoinStatus, secret: Token, cap: Token, handoff: Token, next: CapHash, payee: PubKey,
      delay: u32, confirmations: u32)
    requires PrepareRecovery(m, status, secret, cap, handoff, next, payee, delay, confirmations).Ok?
    ensures var (request, p)
            := PrepareRecovery(m, status, secret, cap, handoff, next, payee, delay, confirmations).value;
            && Opened(request) == status.authorization == Authorization(m.keys.coinId, CapHash(cap), handoff)
            && request.nextCapHash == next && next != CapHash(cap) && request.cap == cap
            && p == PreparedRecovery(request, m, p.tx, payee, delay)
            && CanonicalRecovery(m.outpoint, m.amount, payee, delay) == Ok(p.tx)
            && request.sighash == RecoverySighash(p.tx, m.amount, m.keys)
            && status.signingKey == m.keys.enclave && status.coinId == m.keys.coinId
  {
  }

  /** A wallet at the end of its log that journals an attempt for the next entry. */
  lemma AttemptJournaled(
      a: World, b: World, i: nat, w: WalletState, w': WalletState, purpose: RecoveryPurpose, attempt: RecoveryAttempt)
    requires w.coin.Some? && HasCoin(a, i, w) && Active(w) && w.pending.None?
    requires Saved(a, b, w')
    requires w'.incoming == w.incoming && w'.coin.Some?
    requires var c, c' := CoinOf(w), CoinOf(w');
             c' == c.(metadata := c'.metadata, funding := c'.funding)
             && c'.metadata.Some? && c'.metadata.value.keys == c.keys
             && (c.metadata.Some? ==> c'.metadata == c.metadata)
    requires w'.pending == Some(PendingRecovery(purpose, Prepared(attempt)))
    requires PurposeOk(a.owner, a.requests, i, w', purpose, attempt)
    requires AttemptOk(LogFor(a, CoinOf(w)), CoinOf(w'), attempt)
    ensures WalletOk(b, i, w') && Carries(a, w, w')
  {
  }

  lemma BeginFundShape(cfg: Config, secret: Token, w: WalletState, u: WalletUpdate, w': WalletState)
    requires u.BeginFund? && ApplyWallet(cfg, secret, w, u) == Ok(w')
    ensures w.coin.Some? && w.pending.None? && JustRegistered(CoinOf(w))
            && CoinOf(w).currentCap.Some? && u.status.count == 0
    ensures w'.incoming == w.incoming && w'.coin.Some? && CoinOf(w').metadata.Some? && CoinOf(w').funding.Some?
    ensures var c, m := CoinOf(w), MetadataOf(w');
            && w'.coin == Some(c.(metadata := Some(m), funding := CoinOf(w').funding)) && m.keys == c.keys
            && FundAttempt(m, u.status, c, u.fund.delay, u.nextCap, u.withdrawalSecret).Ok?
            && w'.pending == Some(FundAttempt(m, u.status, c, u.fund.delay, u.nextCap, u.withdrawalSecret).value)
  {
  }

  lemma JournalAttemptShape(cfg: Config, secret: Token, w: WalletState, u: WalletUpdate, w': WalletState)
    requires u.JournalAttempt? && ApplyWallet(cfg, secret, w, u) == Ok(w')
    ensures w.coin.Some? && w.pending.None? && CoinOf(w).metadata.Some?
            && CoinOf(w).funding.Some? && FundingOf(w).stage == FundingPrepared
            && CoinOf(w).currentCap.Some? && u.status.count == 0
    ensures w'.incoming == w.incoming && w'.coin == w.coin
    ensures FundAttempt(MetadataOf(w), u.status, CoinOf(w), u.delay, u.nextCap, u.withdrawalSecret).Ok?
            && w'.pending == Some(FundAttempt(MetadataOf(w), u.status, CoinOf(w), u.delay, u.nextCap,
                                              u.withdrawalSecret).value)
  {
  }

  /** The first attempt of a registered coin, on either backend. */
  lemma FundAttemptJournaled(
      a: World, b: World, i: nat, w: WalletState, w': WalletState, m: CoinMetadata, status: CoinStatus, delay: u32,
      nextCap: Token, secret: Token)
    requires w.coin.Some? && HasCoin(a, i, w) && Active(w) && w.pending.None? && CoinOf(w).history == []
    requires Saved(a, b, w') && w'.incoming == w.incoming && w'.coin.Some?
    requires var c, c' := CoinOf(w), CoinOf(w');
             c' == c.(metadata := Some(m), funding := c'.funding) && m.keys == c.keys
                 && (c.metadata.Some? ==> c.metadata == Some(m))
    requires FundAttempt(m, status, CoinOf(w), delay, nextCap, secret).Ok? && status.count == 0
    requires w'.pending == Some(FundAttempt(m, status, CoinOf(w), delay, nextCap, secret).value)
    requires Owns(a.owner, nextCap, i) && Owns(a.owner, secret, i)
    ensures WalletOk(b, i, w') && Carries(a, w, w')
  {
    hide Carries;
    var c := CoinOf(w);
    PreparedIsCanonical(m, status, c.clientSecret, c.currentCap.value, c.currentHandoff.value, CapHash(nextCap),
                        Point(secret), delay, 0);
    AttemptJournaled(a, b, i, w, w', PurposeOf(w'), AttemptOf(w'));
  }

  lemma BeginFundAgrees(
      cfg: Config, secret: Token, a: World, b: World, i: nat, w: WalletState, u: WalletUpdate, w': WalletState)
    requires u.BeginFund? && WalletOk(a, i, w) && OpOk(a, i, w, WalletOp(u))
    requires ApplyWallet(cfg, secret, w, u) == Ok(w') && Saved(a, b, w')
    ensures WalletOk(b, i, w') && Carries(a, w, w')
  {
    hide ApplyWallet, HasCoin, FundAttempt;
    BeginFundShape(cfg, secret, w, u, w');
    FundAttemptJournaled(a, b, i, w, w', MetadataOf(w'), u.status, u.fund.delay, u.nextCap, u.withdrawalSecret);
  }

  lemma JournalAttemptAgrees(
      cfg: Config, secret: Token, a: World, b: World, i: nat, w: WalletState, u: WalletUpdate, w': WalletState)
    requires u.JournalAttempt? && WalletOk(a, i, w) && OpOk(a, i, w, WalletOp(u)) && WalletSafe(w)
    requires ApplyWallet(cfg, secret, w, u) == Ok(w') && Saved(a, b, w')
    ensures WalletOk(b, i, w') && Carries(a, w, w')
  {
    hide ApplyWallet, Saved, FundAttempt;
    JournalAttemptShape(cfg, secret, w, u, w');
    FundAttemptJournaled(a, b, i, w, w', MetadataOf(w), u.status, u.delay, u.nextCap, u.withdrawalSecret);
  }

  lemma JournalFundingShape(cfg: Config, secret: Token, w: WalletState, u: WalletUpdate, w': WalletState)
    requires u.JournalFunding? && ApplyWallet(cfg, secret, w, u) == Ok(w')
    ensures w.coin.Some? && w.pending.None? && JustRegistered(CoinOf(w)) && CoinOf(w).currentCap.Some?
    ensures w'.coin.Some? && CoinOf(w').metadata.Some? && MetadataOf(w').keys == CoinOf(w).keys
    ensures w' == w.(coin := Some(CoinOf(w).(metadata := CoinOf(w').metadata, funding := CoinOf(w').funding)))
  {
  }

  lemma JournalFundingAgrees(
      cfg: Config, secret: Token, a: World, b: World, i: nat, w: WalletState, u: WalletUpdate, w': WalletState)
    requires u.JournalFunding? && WalletOk(a, i, w)
    requires ApplyWallet(cfg, secret, w, u) == Ok(w') && Saved(a, b, w')
    ensures WalletOk(b, i, w') && Carries(a, w, w')
  {
    hide ApplyWallet, AttemptOk;
    JournalFundingShape(cfg, secret, w, u, w');
  }

  lemma BeginShape(cfg: Config, secret: Token, w: WalletState, u: WalletUpdate, w': WalletState)
    requires u.Begin? && ApplyWallet(cfg, secret, w, u) == Ok(w')
    ensures w.coin.Some? && w.pending.None? && CoinOf(w).metadata.Some? && CoinOf(w).history != []
            && CoinOf(w).currentCap.Some? && CoinOf(w).currentHandoff.Some?
            && u.request.coinId == CoinOf(w).keys.coinId
            && u.status.count == |CoinOf(w).history|
    ensures TransferAttempt(CoinOf(w), MetadataOf(w), u.request, u.status, u.observed.confirmations,
                            cfg.minReaction).Ok?
    ensures w' == w.(pending := Some(PendingRecovery(Transfer(u.request), Prepared(
                    TransferAttempt(CoinOf(w), MetadataOf(w), u.request, u.status, u.observed.confirmations,
                                    cfg.minReaction).value))))
  {
  }

  /** The recovery that a transfer of this coin prepares. */
  function NextPrepared(
      coin: WalletCoin, m: CoinMetadata, request: TransferRequest, status: CoinStatus, confirmations: u32)
    : Result<(SignRequest, PreparedRecovery), ClientError>
    requires coin.history != [] && coin.currentCap.Some? && coin.currentHandoff.Some?
             && Last(coin.history).delay >= DELAY_STEP
  {
    PrepareRecovery(m, status, coin.clientSecret, coin.currentCap.value, coin.currentHandoff.value, request.nextCapHash,
                    request.withdrawal, Last(coin.history).delay - DELAY_STEP, confirmations)
  }

  lemma TransferAttemptShape(
      coin: WalletCoin, m: CoinMetadata, request: TransferRequest, status: CoinStatus, confirmations: u32, margin: u32)
    requires coin.history != [] && coin.currentCap.Some? && coin.currentHandoff.Some?
    requires TransferAttempt(coin, m, request, status, confirmations, margin).Ok?
    ensures Last(coin.history).delay >= DELAY_STEP && NextPrepared(coin, m, request, status, confirmations).Ok?
    ensures var p := NextPrepared(coin, m, request, status, confirmations).value;
            TransferAttempt(coin, m, request, status, confirmations, margin).value
            == RecoveryAttempt(status.count, Last(coin.history).delay - DELAY_STEP, p.0, p.1)
  {
    hide PrepareRecovery, JsonSize;
  }

  /** The attempt of a transfer continues the log by one canonical step. */
  lemma TransferAttemptIsCanonical(
      log: CoinLog, coin: WalletCoin, m: CoinMetadata, request: TransferRequest, status: CoinStatus, confirmations: u32,
      attempt: RecoveryAttempt)
    requires Holding(log, coin) && coin.history != [] && coin.metadata == Some(m) && m.keys == coin.keys
    requires status.count == |coin.history| && Last(coin.history).delay >= DELAY_STEP
    requires var prepared := NextPrepared(coin, m, request, status, confirmations);
             && prepared.Ok?
             && attempt
                == RecoveryAttempt(status.count, Last(coin.history).delay - DELAY_STEP, prepared.value.0,
                                   prepared.value.1)
    ensures AttemptOk(log, coin, attempt)
    ensures attempt.request.nextCapHash == request.nextCapHash && attempt.prepared.withdrawal == request.withdrawal
  {
    hide PrepareRecovery, Recoveries;
    PreparedIsCanonical(m, status, coin.clientSecret, coin.currentCap.value, coin.currentHandoff.value,
                        request.nextCapHash,
                        request.withdrawal, attempt.delay, confirmations);
  }

  lemma BeginAgrees(
      cfg: Config, secret: Token, a: World, b: World, i: nat, w: WalletState, u: WalletUpdate, w': WalletState)
    requires u.Begin? && WalletOk(a, i, w) && OpOk(a, i, w, WalletOp(u))
    requires ApplyWallet(cfg, secret, w, u) == Ok(w') && Saved(a, b, w')
    ensures WalletOk(b, i, w') && Carries(a, w, w')
  {
    hide BeginFunding;
    BeginShape(cfg, secret, w, u, w');
    var coin := CoinOf(w);
    TransferAttemptShape(coin, coin.metadata.value, u.request, u.status, u.observed.confirmations, cfg.minReaction);
    TransferAttemptIsCanonical(LogFor(a, coin), coin, coin.metadata.value, u.request, u.status,
                               u.observed.confirmations,
                               AttemptOf(w'));
    AttemptJournaled(a, b, i, w, w', Transfer(u.request), AttemptOf(w'));
  }

  // ---------------------------------------------------------------------------
  // Applying responses.

  /** Completing the attempt gives exactly the log entry's recovery. */
  lemma CompletedIsLogged(log: CoinLog, coin: WalletCoin, attempt: RecoveryAttempt, response: SignResponse)
    requires AttemptOk(log, coin, attempt)
    requires coin.metadata.Some? && coin.metadata.value.keys == coin.keys && attempt.request.coinId == coin.keys.coinId
    requires coin.keys.client == Point(coin.clientSecret) && coin.keys.client != coin.keys.enclave
    requires response.signature == Sig(coin.keys.enclave, attempt.request.sighash, 0)
    ensures CompleteRecovery(attempt.request, response, attempt.prepared, coin.clientSecret)
         == Ok(RecoveryOf(Entry(attempt.request, response)))
    ensures RecoveryOf(Entry(attempt.request, response)).delay == attempt.delay
    ensures RecoveryOf(Entry(attempt.request, response)).withdrawal == attempt.prepared.withdrawal
  {
    var p := attempt.prepared;
    PreparedEntry(p.metadata, p.withdrawal, p.delay, attempt.request, response);
    PrepareThenComplete(p.metadata, p, response, coin.clientSecret);
  }

  function Completed(w: WalletState): Result<SignedRecovery, ClientError> {
    CompleteRecovery(AttemptOf(w).request, ResponseOf(w), AttemptOf(w).prepared, CoinOf(w).clientSecret)
  }

  function PendingEntry(w: WalletState): Entry {
    Entry(AttemptOf(w).request, ResponseOf(w))
  }

  /** `w'` is `w` after its first recovery was completed and applied. */
  ghost predicate SecuredFrom(w: WalletState, w': WalletState) {
    && Responding(w) && PurposeOf(w).Fund? && CoinOf(w).funding.Some?
    && Completed(w).Ok?
    && var c, purpose, response := CoinOf(w), PurposeOf(w), ResponseOf(w);
       && w' == w.(pending := None, coin := Some(c.(
            history := c.history + [Completed(w).value],
            funding := Some(c.funding.value.(stage := RecoverySecured)),
            currentCap := Some(purpose.nextCap),
            currentHandoff := Some(response.nextHandoff),
            withdrawalSecret := Some(purpose.withdrawalSecret),
            withdrawalIndex := Some(|c.history|))))
  }

  /** `w'` is `w` after its coin was sent on. */
  ghost predicate FinishedFrom(w: WalletState, w': WalletState) {
    && Responding(w) && PurposeOf(w).Transfer? && CoinOf(w).metadata.Some?
    && Completed(w).Ok?
    && var c, request, response := CoinOf(w), PurposeOf(w).request, ResponseOf(w);
       && c.withdrawalIndex.Some? && c.withdrawalIndex.value < |c.history|
       && request.coinId == c.keys.coinId && request.network == c.metadata.value.network
       && request.outpoint == c.metadata.value.outpoint && request.amount == c.metadata.value.amount
       && w'.coin.Some? && CoinOf(w').outgoing.Some?
       && var envelope := OutgoingOf(w').envelope;
          && envelope.ciphertext.aad == request
          && envelope.ciphertext.payload == TransferPayload(request.requestId, c.clientSecret, response.nextHandoff,
                                                            c.metadata.value, c.history + [Completed(w).value])
          && w' == w.(pending := None, coin := Some(c.(
               history := [c.history[c.withdrawalIndex.value]],
               withdrawalIndex := Some(0), currentCap := None, currentHandoff := None,
               outgoing := Some(OutgoingTransfer(request, envelope)))))
  }

  lemma SecureShape(cfg: Config, secret: Token, w: WalletState, u: WalletUpdate, w': WalletState)
    requires u.Secure? && ApplyWallet(cfg, secret, w, u) == Ok(w')
    ensures SecuredFrom(w, w')
    ensures ResponseOf(w).signature.key == CoinOf(w).keys.enclave
  {
  }

  /** A wallet whose funding attempt is the log's first entry takes up its next capability. */
  lemma SecuredHolds(
      log: CoinLog, coin: WalletCoin, coin': WalletCoin, attempt: RecoveryAttempt, response: SignResponse, key: Token)
    requires coin.history == [] && AttemptOk(log, coin, attempt) && Chained(key, log)
    requires |log.entries| == 1 && log.entries[0] == Entry(attempt.request, response)
    requires attempt.request.coinId == coin.keys.coinId
    requires coin'.currentCap.Some? && attempt.request.nextCapHash == CapHash(coin'.currentCap.value)
    requires coin'.currentHandoff == Some(response.nextHandoff) && coin'.outgoing.None? && coin'.keys == coin.keys
    requires coin'.history == [RecoveryOf(log.entries[0])] && coin'.withdrawalIndex == Some(0)
    requires coin'.withdrawalSecret.Some? && RecoveryOf(log.entries[0]).withdrawal
             == Point(coin'.withdrawalSecret.value)
    ensures Holding(log, coin') && UsedCap(log, attempt.request.cap)
  {
    assert EntryAuthorized(key, log, 0);
    RecoveriesNext(log, 0);
  }

  /** The pending response is the entry right after the wallet's history. */
  ghost predicate AtNewest(a: World, w: WalletState) {
    && Responding(w) && Key(CoinOf(w)) in a.logs
    && var log, n := LogFor(a, CoinOf(w)), |CoinOf(w).history|;
       |log.entries| == n + 1 && log.entries[n] == PendingEntry(w)
  }

  /** A saved response under the coin's own key is the log's newest entry, at the wallet's position. */
  lemma ResponseIsNewest(a: World, i: nat, w: WalletState)
    requires Responding(w) && HasCoin(a, i, w) && LogOk(a, Key(CoinOf(w)))
    requires ResponseOf(w).signature.key == CoinOf(w).keys.enclave && ReplyOk(a, PendingEntry(w))
    ensures AtNewest(a, w)
  {
    hide Gone, Holding;
    var log, n := LogFor(a, CoinOf(w)), |CoinOf(w).history|;
    var p :| 0 <= p < |log.entries| && log.entries[p] == PendingEntry(w);
    assert EntryAuthorized(Key(CoinOf(w)), log, p);
    assert AuthAt(log, p).handoff == AuthAt(log, n).handoff;
  }

  lemma SecureAgrees(
      cfg: Config, secret: Token, a: World, b: World, i: nat, w: WalletState, u: WalletUpdate, w': WalletState)
    requires u.Secure? && WalletOk(a, i, w)
    requires w.coin.Some? ==> LogOk(a, Key(CoinOf(w)))
    requires Responding(w) ==> ReplyOk(a, PendingEntry(w))
    requires ApplyWallet(cfg, secret, w, u) == Ok(w') && Saved(a, b, w')
    ensures WalletOk(b, i, w') && Carries(a, w, w')
  {
    hide ApplyWallet, HasCoin, Completed, Saved, Carries;
    SecureShape(cfg, secret, w, u, w');
    ResponseIsNewest(a, i, w);
    SecureApplied(a, b, i, w, w');
  }

  lemma SecureApplied(a: World, b: World, i: nat, w: WalletState, w': WalletState)
    requires SecuredFrom(w, w') && HasCoin(a, i, w) && LogOk(a, Key(CoinOf(w))) && AtNewest(a, w)
    requires Saved(a, b, w')
    ensures WalletOk(b, i, w') && Carries(a, w, w')
  {
    var c := CoinOf(w);
    var log := LogFor(a, c);
    var stage := w.pending.value.stage;
    assert EntryAuthorized(Key(c), log, 0);
    CompletedIsLogged(log, c, stage.attempt, stage.response);
    SecuredHolds(log, c, CoinOf(w'), stage.attempt, stage.response, Key(c));
    assert InLog(log, stage.attempt.request);
  }

  lemma FinishShape(cfg: Config, secret: Token, w: WalletState, u: WalletUpdate, w': WalletState)
    requires u.Finish? && ApplyWallet(cfg, secret, w, u) == Ok(w')
    ensures FinishedFrom(w, w')
    ensures ResponseOf(w).signature.key == CoinOf(w).keys.enclave
  {
    hide BeginTransfer, AcceptTransfer, BeginFunding;
  }

  /** With its last recovery added, the sender's history is the whole log. */
  lemma FinishedHistory(a: World, i: nat, w: WalletState)
    requires Responding(w) && HasCoin(a, i, w) && AtNewest(a, w)
    ensures CoinOf(w).history + [RecoveryOf(PendingEntry(w))] == Recoveries(LogFor(a, CoinOf(w)).entries)
  {
    var log, n := LogFor(a, CoinOf(w)), |CoinOf(w).history|;
    RecoveriesNext(log, n);
    assert log.entries[..n + 1] == log.entries;
  }

  /** The attempt that the newest entry answers was made for this request, for this coin. */
  lemma FinishedEntry(a: World, i: nat, w: WalletState)
    requires Responding(w) && HasCoin(a, i, w) && AtNewest(a, w) && PurposeOf(w).Transfer?
    ensures var request, e := PurposeOf(w).request, PendingEntry(w);
            && e.request.nextCapHash == request.nextCapHash && e.request.coinId == CoinOf(w).keys.coinId
            && AttemptOf(w).prepared.withdrawal == request.withdrawal
            && CoinOf(w).history != []
  {
  }

  lemma PackageFromLog(log: CoinLog, coin: WalletCoin, e: Entry)
    requires 2 <= |log.entries| && log.entries[|log.entries| - 1] == e
    requires coin.outgoing.Some? && coin.metadata.Some?
    requires var request, envelope, m := coin.outgoing.value.request, coin.outgoing.value.envelope, coin.metadata.value;
             && envelope.ciphertext.aad == request
             && envelope.ciphertext.payload
                == TransferPayload(request.requestId, coin.clientSecret, e.response.nextHandoff, m,
                                                               Recoveries(log.entries))
             && request.coinId == coin.keys.coinId == log.coinId && request.network == m.network
             && request.outpoint == m.outpoint && request.amount == m.amount
             && e.request.nextCapHash == request.nextCapHash && RecoveryOf(e).withdrawal == request.withdrawal
    ensures PackageCarries(log, coin)
  {
    assert log.entries[..|log.entries|] == log.entries;
  }

  /** The package a sender leaves behind carries the whole log; what it keeps is its own entry. */
  lemma FinishedIsGone(a: World, i: nat, w: WalletState, w': WalletState)
    requires FinishedFrom(w, w') && HasCoin(a, i, w) && AtNewest(a, w)
    requires Completed(w).value == RecoveryOf(PendingEntry(w))
    requires Completed(w).value.withdrawal == AttemptOf(w).prepared.withdrawal
    ensures Gone(LogFor(a, CoinOf(w)), CoinOf(w'))
  {
    FinishedPackage(a, i, w, w');
    FinishedKeepsOwn(a, i, w, w');
  }

  lemma FinishedPackage(a: World, i: nat, w: WalletState, w': WalletState)
    requires FinishedFrom(w, w') && HasCoin(a, i, w) && AtNewest(a, w)
    requires Completed(w).value == RecoveryOf(PendingEntry(w))
    requires Completed(w).value.withdrawal == AttemptOf(w).prepared.withdrawal
    ensures PackageCarries(LogFor(a, CoinOf(w)), CoinOf(w'))
  {
    FinishedHistory(a, i, w);
    FinishedEntry(a, i, w);
    PackageFromLog(LogFor(a, CoinOf(w)), CoinOf(w'), PendingEntry(w));
  }

  lemma FinishedKeepsOwn(a: World, i: nat, w: WalletState, w': WalletState)
    requires FinishedFrom(w, w') && HasCoin(a, i, w) && AtNewest(a, w)
    ensures KeepsOwn(LogFor(a, CoinOf(w)), CoinOf(w'))
  {
    hide Completed, PendingOk, RecoveryOf, Holding;
    FinishedEntry(a, i, w);
    KeptIsOwn(LogFor(a, CoinOf(w)), CoinOf(w));
  }

  lemma KeptIsOwn(log: CoinLog, coin: WalletCoin)
    requires Holding(log, coin) && coin.history != []
    ensures coin.withdrawalIndex == Some(|coin.history| - 1) && OwnsLast(coin)
    ensures coin.history[|coin.history| - 1] == RecoveryOf(log.entries[|coin.history| - 1])
  {
  }

  lemma FinishAgrees(
      cfg: Config, secret: Token, a: World, b: World, i: nat, w: WalletState, u: WalletUpdate, w': WalletState)
    requires u.Finish? && WalletOk(a, i, w)
    requires w.coin.Some? ==> LogOk(a, Key(CoinOf(w)))
    requires Responding(w) ==> ReplyOk(a, PendingEntry(w))
    requires ApplyWallet(cfg, secret, w, u) == Ok(w') && Saved(a, b, w')
    ensures WalletOk(b, i, w') && Carries(a, w, w')
  {
    hide ApplyWallet, HasCoin, Completed, Saved, Carries;
    FinishShape(cfg, secret, w, u, w');
    ResponseIsNewest(a, i, w);
    PendingCompletes(a, i, w);
    FinishedIsGone(a, i, w, w');
    FinishApplied(a, b, i, w, w');
  }

  lemma PendingCompletes(a: World, i: nat, w: WalletState)
    requires Responding(w) && HasCoin(a, i, w) && LogOk(a, Key(CoinOf(w))) && AtNewest(a, w)
    ensures Completed(w) == Ok(RecoveryOf(PendingEntry(w)))
    ensures Completed(w).value.withdrawal == AttemptOf(w).prepared.withdrawal
    ensures Completed(w).value.delay == AttemptOf(w).delay
  {
    assert EntryAuthorized(Key(CoinOf(w)), LogFor(a, CoinOf(w)), |CoinOf(w).history|);
    CompletedIsLogged(LogFor(a, CoinOf(w)), CoinOf(w), AttemptOf(w), ResponseOf(w));
  }

  lemma SpentInLog(log: CoinLog, n: nat)
    requires n < |log.entries|
    ensures UsedCap(log, log.entries[n].request.cap) && InLog(log, log.entries[n].request)
  {
  }

  lemma FinishApplied(a: World, b: World, i: nat, w: WalletState, w': WalletState)
    requires FinishedFrom(w, w') && HasCoin(a, i, w) && AtNewest(a, w)
    requires Gone(LogFor(a, CoinOf(w)), CoinOf(w'))
    requires Saved(a, b, w')
    ensures WalletOk(b, i, w') && Carries(a, w, w')
  {
    hide HasCoin, FinishedFrom, Gone;
    SpentInLog(LogFor(a, CoinOf(w)), |CoinOf(w).history|);
    FinishCarries(a, i, w, w');
    FinishedStaysOk(a, b, i, w, w');
  }

  lemma FinishCarries(a: World, i: nat, w: WalletState, w': WalletState)
    requires FinishedFrom(w, w') && HasCoin(a, i, w) && AtNewest(a, w)
    requires UsedCap(LogFor(a, CoinOf(w)), PendingEntry(w).request.cap)
             && InLog(LogFor(a, CoinOf(w)), PendingEntry(w).request)
    ensures Carries(a, w, w')
  {
  }

  /** A coin keeps its standing when only its position in the log changes. */
  lemma SameBase(a: World, b: World, coin: WalletCoin, coin': WalletCoin, w': WalletState)
    requires CoinBase(a, coin) && w'.coin == Some(coin') && Saved(a, b, w')
    requires coin'.keys == coin.keys && coin'.clientSecret == coin.clientSecret && coin'.metadata == coin.metadata
    ensures CoinBase(b, coin')
  {
  }

  lemma SpentStaysAccepted(log: CoinLog, coin: WalletCoin, coin': WalletCoin)
    requires AcceptedOk(log, coin) && coin.currentCap.Some? && UsedCap(log, coin.currentCap.value)
    requires coin'.keys == coin.keys && coin'.acceptedRequest == coin.acceptedRequest
    ensures AcceptedOk(log, coin')
  {
  }

  lemma FinishedIsSentOn(a: World, b: World, i: nat, w: WalletState, w': WalletState)
    requires FinishedFrom(w, w') && HasCoin(a, i, w) && AtNewest(a, w) && Saved(a, b, w')
    ensures SentOn(b, i, LogFor(a, CoinOf(w)), CoinOf(w'))
  {
  }

  lemma FinishedStaysOk(a: World, b: World, i: nat, w: WalletState, w': WalletState)
    requires FinishedFrom(w, w') && HasCoin(a, i, w) && AtNewest(a, w)
    requires UsedCap(LogFor(a, CoinOf(w)), PendingEntry(w).request.cap)
    requires Gone(LogFor(a, CoinOf(w)), CoinOf(w'))
    requires Saved(a, b, w')
    ensures WalletOk(b, i, w')
  {
    SameBase(a, b, CoinOf(w), CoinOf(w'), w');
    SpentStaysAccepted(LogFor(a, CoinOf(w)), CoinOf(w), CoinOf(w'));
    FinishedIsSentOn(a, b, i, w, w');
    assert LogFor(b, CoinOf(w')) == LogFor(a, CoinOf(w));
  }

  // ---------------------------------------------------------------------------
  // Accepting.

  /** `w'` is `w` after it took over the coin in a package. */
  ghost predicate AcceptedFrom(w: WalletState, request: TransferRequest, envelope: TransferEnvelope, w': WalletState) {
    && w.coin.None? && w.pending.None? && w.incoming.Some? && IncomingOf(w).request == request
    && envelope.ciphertext.aad == request
    && var payload, incoming := envelope.ciphertext.payload, IncomingOf(w);
       && payload.metadata.keys.coinId == request.coinId
       && payload.history != []
       && w' == WalletState(Some(WalletCoin(
            payload.clientSecret, payload.metadata.keys, Some(payload.metadata), None, Some(incoming.cap),
            Some(payload.handoff),
            Some(incoming.withdrawalSecret), Some(|payload.history| - 1), Some(request), Some(Fingerprint(envelope)),
            payload.history, None)), None, None)
  }

  lemma AcceptShape(cfg: Config, secret: Token, w: WalletState, u: WalletUpdate, w': WalletState)
    requires u.Accept? && ApplyWallet(cfg, secret, w, u) == Ok(w')
    ensures w' == w || AcceptedFrom(w, u.request, u.envelope, w')
  {
  }

  /** Wallet `s` released this package. */
  ghost predicate FromSender(a: World, s: nat, sender: WalletState, envelope: TransferEnvelope) {
    Sender(sender, envelope) && HasCoin(a, s, sender) && !Active(sender)
  }

  lemma SenderIsGone(a: World, s: nat, sender: WalletState, envelope: TransferEnvelope)
    requires FromSender(a, s, sender, envelope)
    ensures Key(CoinOf(sender)) in a.logs
    ensures Gone(LogFor(a, CoinOf(sender)), CoinOf(sender)) && SentOn(a, s, LogFor(a, CoinOf(sender)), CoinOf(sender))
    ensures OutgoingOf(sender).request == envelope.ciphertext.aad
  {
  }

  /** An unspent incoming capability means the signer still is where the package left it. */
  lemma UnspentIsNewest(key: Token, log: CoinLog, sender: WalletCoin, cap: Token)
    requires Gone(log, sender) && Chained(key, log)
    requires sender.outgoing.value.request.nextCapHash == CapHash(cap) && !UsedCap(log, cap)
    ensures |log.entries| == |sender.outgoing.value.envelope.ciphertext.payload.history|
  {
    var q := |sender.outgoing.value.envelope.ciphertext.payload.history|;
    assert q < |log.entries| ==> EntryAuthorized(key, log, q) && log.entries[q].request.cap == cap;
  }

  lemma PackageIsNewest(a: World, s: nat, sender: WalletState, envelope: TransferEnvelope, cap: Token)
    requires FromSender(a, s, sender, envelope) && LogOk(a, Key(CoinOf(sender)))
    requires envelope.ciphertext.aad.nextCapHash == CapHash(cap)
    requires !UsedCap(LogFor(a, CoinOf(sender)), cap)
    ensures |LogFor(a, CoinOf(sender)).entries| == |envelope.ciphertext.payload.history|
  {
    SenderIsGone(a, s, sender, envelope);
    UnspentIsNewest(Key(CoinOf(sender)), LogFor(a, CoinOf(sender)), CoinOf(sender), cap);
  }

  lemma AcceptApplied(
      a: World, b: World, i: nat, w: WalletState, w': WalletState, request: TransferRequest, envelope: TransferEnvelope,
      s: nat, sender: WalletState)
    requires WalletOk(a, i, w) && AcceptedFrom(w, request, envelope, w') && Saved(a, b, w')
    requires FromSender(a, s, sender, envelope) && LogOk(a, Key(CoinOf(sender)))
    requires !UsedCap(LogFor(a, CoinOf(sender)), IncomingOf(w).cap)
    ensures WalletOk(b, i, w') && Carries(a, w, w')
  {
    hide RecoveryOf;
    PackageIsNewest(a, s, sender, envelope, IncomingOf(w).cap);
    var log, coin := LogFor(a, CoinOf(sender)), CoinOf(w');
    assert log.entries[..|log.entries|] == log.entries;
    AcceptedHolds(log, coin, CoinOf(sender), IncomingOf(w));
  }

  lemma AcceptedHolds(log: CoinLog, coin: WalletCoin, sender: WalletCoin, incoming: IncomingTransfer)
    requires Gone(log, sender) && sender.outgoing.value.request == incoming.request
    requires incoming.request.nextCapHash == CapHash(incoming.cap)
             && incoming.request.withdrawal == Point(incoming.withdrawalSecret)
    requires var payload := sender.outgoing.value.envelope.ciphertext.payload;
             && |log.entries| == |payload.history|
             && coin.history == payload.history && coin.keys.coinId == sender.keys.coinId
             && coin.currentHandoff == Some(payload.handoff)
    requires coin.currentCap == Some(incoming.cap) && coin.outgoing.None?
    requires coin.withdrawalIndex == Some(|coin.history| - 1)
             && coin.withdrawalSecret == Some(incoming.withdrawalSecret)
    requires !UsedCap(log, incoming.cap)
    ensures Holding(log, coin)
  {
  }

  /** The two newest positions of the log belong to the receiver and to the sender that spent its own. */
  lemma NewestOwners(a: World, key: Token, log: CoinLog, i: nat, incoming: IncomingTransfer, s: nat, sender: WalletCoin)
    requires Owns(a.owner, incoming.cap, i) && incoming.request.nextCapHash == CapHash(incoming.cap)
    requires Gone(log, sender) && SentOn(a, s, log, sender) && Chained(key, log)
    requires sender.outgoing.value.request == incoming.request && !UsedCap(log, incoming.cap)
    ensures 0 < |log.entries|
    ensures Owns(a.owner, AuthAt(log, |log.entries|).capHash.cap, i)
    ensures Owns(a.owner, AuthAt(log, |log.entries| - 1).capHash.cap, s)
  {
    UnspentIsNewest(key, log, sender, incoming.cap);
    assert EntryAuthorized(key, log, |log.entries| - 1);
  }

  /** A holder sits at one of the two newest positions and owns its capability. */
  lemma HolderOwnsPosition(a: World, j: nat, other: WalletState)
    requires other.coin.Some? && HasCoin(a, j, other) && Active(other)
    ensures var log, n := LogFor(a, CoinOf(other)), |CoinOf(other).history|;
            n <= |log.entries| <= n + 1 && Owns(a.owner, AuthAt(log, n).capHash.cap, j)
  {
  }

  /** Whoever sits at one of two positions with known owners is one of those owners. */
  lemma OneOfTwoOwners(owner: map<Token, nat>, log: CoinLog, i: nat, s: nat, j: nat, n: nat)
    requires 0 < |log.entries| && n <= |log.entries| <= n + 1
    requires Owns(owner, AuthAt(log, |log.entries|).capHash.cap, i)
             && Owns(owner, AuthAt(log, |log.entries| - 1).capHash.cap, s)
    requires Owns(owner, AuthAt(log, n).capHash.cap, j)
    ensures j == i || j == s
  {
  }

  lemma ActiveIsReceiverOrSender(a: World, log: CoinLog, i: nat, s: nat, j: nat, other: WalletState)
    requires other.coin.Some? && HasCoin(a, j, other) && log == LogFor(a, CoinOf(other)) && 0 < |log.entries|
    requires Owns(a.owner, AuthAt(log, |log.entries|).capHash.cap, i)
             && Owns(a.owner, AuthAt(log, |log.entries| - 1).capHash.cap, s)
    ensures Active(other) ==> j == i || j == s
  {
    if Active(other) {
      HolderOwnsPosition(a, j, other);
      OneOfTwoOwners(a.owner, log, i, s, j, |CoinOf(other).history|);
    }
  }

  /** Nobody else can still show a capability for the coin being accepted. */
  lemma AcceptIsOnlyActive(
      a: World, i: nat, incoming: IncomingTransfer, s: nat, sender: WalletState, envelope: TransferEnvelope, j: nat,
      other: WalletState)
    requires i != j && Owns(a.owner, incoming.cap, i) && incoming.request.nextCapHash == CapHash(incoming.cap)
    requires FromSender(a, s, sender, envelope) && LogOk(a, Key(CoinOf(sender)))
    requires envelope.ciphertext.aad == incoming.request
    requires !UsedCap(LogFor(a, CoinOf(sender)), incoming.cap)
    requires other.coin.Some? && HasCoin(a, j, other) && Key(CoinOf(other)) == Key(CoinOf(sender))
    requires j == s ==> other == sender
    ensures !Active(other)
  {
    var log := LogFor(a, CoinOf(sender));
    SenderIsGone(a, s, sender, envelope);
    NewestOwners(a, Key(CoinOf(sender)), log, i, incoming, s, CoinOf(sender));
    ActiveIsReceiverOrSender(a, log, i, s, j, other);
  }

  lemma SameIdSameKey(a: World, i: nat, w: WalletState, j: nat, other: WalletState)
    requires w.coin.Some? && HasCoin(a, i, w) && other.coin.Some? && HasCoin(a, j, other)
    requires CoinOf(w).keys.coinId == CoinOf(other).keys.coinId
    ensures Key(CoinOf(w)) == Key(CoinOf(other))
  {
  }
}
