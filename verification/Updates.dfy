/** What each wallet update keeps, whatever values the outside fed into it. */
module Updates {
  import opened Wrappers
  import opened Bitcoin
  import opened Enclave
  import opened Client
  import opened Transfer
  import opened Validation
  import opened Funding
  import opened Wallet
  import opened Exit
  import opened Driver

  function Rank(stage: FundingStage): nat {
    match stage
    case FundingPrepared => 0
    case RecoverySecured => 1
    case FundingBroadcast => 2
  }

  /** Before its first recovery a funded coin has no history; from then on it owns recovery 0 and its secret. */
  ghost predicate FundedShape(coin: WalletCoin) {
    coin.funding.Some? ==>
      && coin.metadata.Some?
      && (coin.funding.value.stage == FundingPrepared ==> coin.history == [])
      && (coin.funding.value.stage != FundingPrepared ==> OwnsFirst(coin))
  }

  ghost predicate OwnsFirst(coin: WalletCoin) {
    && |coin.history| == 1 && coin.withdrawalIndex == Some(0) && coin.withdrawalSecret.Some?
    && Point(coin.withdrawalSecret.value) == coin.history[0].withdrawal
  }

  /** A pending first recovery is for the coin's own prepared funding and pays the journaled secret. */
  ghost predicate FundPending(w: WalletState) {
    w.pending.Some? && w.pending.value.PendingRecovery? && PurposeOf(w).Fund? ==>
      var prepared := AttemptOf(w).prepared;
      && w.coin.Some? && CoinOf(w).funding.Some? && CoinOf(w).metadata.Some?
      && FundingOf(w).stage == FundingPrepared
      && prepared.metadata == MetadataOf(w)
      && prepared.withdrawal == Point(PurposeOf(w).withdrawalSecret)
  }

  /** A coin that was sent on has no capability left and nothing pending. */
  ghost predicate SentIsSpent(w: WalletState) {
    w.coin.Some? && CoinOf(w).outgoing.Some? ==> CoinOf(w).currentCap.None? && w.pending.None?
  }

  ghost predicate WalletSafe(w: WalletState) {
    && ReplayBindingComplete(w)
    && SentIsSpent(w)
    && (w.coin.Some? ==> FundedShape(CoinOf(w)))
    && FundPending(w)
  }

  /** The saved funding bytes never change, its stage never falls, and a secured recovery stays. */
  ghost predicate FundingKept(w: WalletState, w': WalletState) {
    w.coin.Some? && CoinOf(w).funding.Some? ==>
      && w'.coin.Some? && CoinOf(w').funding.Some?
      && FundingOf(w').tx == FundingOf(w).tx
      && CoinOf(w').metadata == CoinOf(w).metadata
      && Rank(FundingOf(w).stage) <= Rank(FundingOf(w').stage)
      && (FundingOf(w).stage != FundingPrepared ==>
            CoinOf(w').history == CoinOf(w).history && CoinOf(w').withdrawalSecret == CoinOf(w).withdrawalSecret)
  }

  /** A coin is never replaced: its keys, its funding output,
  what it was accepted from and what it was sent as are final. */
  ghost predicate CoinKept(w: WalletState, w': WalletState) {
    w.coin.Some? ==>
      && w'.coin.Some?
      && var c, c' := CoinOf(w), CoinOf(w');
         && c'.keys == c.keys && c'.clientSecret == c.clientSecret
         && c'.acceptedRequest == c.acceptedRequest && c'.acceptedFingerprint == c.acceptedFingerprint
         && (c.metadata.Some? ==> c'.metadata == c.metadata)
         && (c.outgoing.Some? ==> c'.outgoing == c.outgoing)
  }

  function WalletReserved(w: WalletState): set<OutPoint> {
    if w.coin.Some? && CoinOf(w).funding.Some? then SpentBy(FundingOf(w).tx) else {}
  }

  /** New inputs are reserved only when a funding transaction is journaled. */
  ghost predicate ReservesOnly(w: WalletState, u: WalletUpdate, w': WalletState) {
    match u
    case BeginFund(source, _, _, _, _) => WalletReserved(w') == {source.outpoint}
    case JournalFunding(_, _, _, _) => true
    case _ => WalletReserved(w') == WalletReserved(w)
  }

  ghost predicate Kept(w: WalletState, u: WalletUpdate, w': WalletState) {
    WalletSafe(w') && FundingKept(w, w') && CoinKept(w, w') && ReservesOnly(w, u, w')
  }

  lemma RegistrationKeeps(cfg: Config, secret: Token, w: WalletState, u: WalletUpdate)
    requires u.BeginRegister? || u.FinishRegister?
    requires WalletSafe(w) && ApplyWallet(cfg, secret, w, u).Ok?
    ensures Kept(w, u, OkOr(ApplyWallet(cfg, secret, w, u), w))
  {
    hide BeginTransfer;
  }

  lemma BeginFundKeeps(cfg: Config, secret: Token, w: WalletState, u: WalletUpdate)
    requires u.BeginFund?
    requires WalletSafe(w) && ApplyWallet(cfg, secret, w, u).Ok?
    ensures Kept(w, u, OkOr(ApplyWallet(cfg, secret, w, u), w))
  {
    hide BuildSourceFunding;
    var w' := OkOr(ApplyWallet(cfg, secret, w, u), w);
    var tx := FundingOf(w').tx;
    var p := u.fund;
    var keys := CoinOf(w).keys;
    assert BuildSourceFunding(keys, secret, u.source, p.amount, p.feeRate, p.maxFee).value.tx == tx;
    SpendsOneSource(keys, secret, u.source, p.amount, p.feeRate, p.maxFee);
  }

  lemma SpendsOneSource(keys: CoinKeys, secret: Token, source: SourceUtxo, amount: u64, feeRate: u64, maxFee: u64)
    requires BuildSourceFunding(keys, secret, source, amount, feeRate, maxFee).Ok?
    ensures SpentBy(BuildSourceFunding(keys, secret, source, amount, feeRate, maxFee).value.tx) == {source.outpoint}
  {
    var tx := BuildSourceFunding(keys, secret, source, amount, feeRate, maxFee).value.tx;
    assert tx.inputs[0] in tx.inputs && tx.inputs[0].prevout == source.outpoint;
  }

  lemma JournalKeeps(cfg: Config, secret: Token, w: WalletState, u: WalletUpdate)
    requires u.JournalFunding? || u.JournalAttempt?
    requires WalletSafe(w) && ApplyWallet(cfg, secret, w, u).Ok?
    ensures Kept(w, u, OkOr(ApplyWallet(cfg, secret, w, u), w))
  {
    hide BeginTransfer;
  }

  lemma RecordKeeps(cfg: Config, secret: Token, w: WalletState, u: WalletUpdate)
    requires u.Record? || u.MarkBroadcast?
    requires WalletSafe(w) && ApplyWallet(cfg, secret, w, u).Ok?
    ensures Kept(w, u, OkOr(ApplyWallet(cfg, secret, w, u), w))
  {
  }

  lemma SecureKeeps(cfg: Config, secret: Token, w: WalletState, u: WalletUpdate)
    requires u.Secure?
    requires WalletSafe(w) && ApplyWallet(cfg, secret, w, u).Ok?
    ensures Kept(w, u, OkOr(ApplyWallet(cfg, secret, w, u), w))
  {
    hide BeginTransfer;
  }

  lemma TransferKeeps(cfg: Config, secret: Token, w: WalletState, u: WalletUpdate)
    requires u.Ask? || u.Begin?
    requires WalletSafe(w) && ApplyWallet(cfg, secret, w, u).Ok?
    ensures Kept(w, u, OkOr(ApplyWallet(cfg, secret, w, u), w))
  {
    hide BeginFunding, AcceptTransfer, CompleteTransfer, TransferAttempt;
  }

  lemma FinishKeeps(cfg: Config, secret: Token, w: WalletState, u: WalletUpdate)
    requires u.Finish?
    requires WalletSafe(w) && ApplyWallet(cfg, secret, w, u).Ok?
    ensures Kept(w, u, OkOr(ApplyWallet(cfg, secret, w, u), w))
  {
    hide BeginTransfer, PayloadSize;
    SentKeeps(w, u, OkOr(ApplyWallet(cfg, secret, w, u), w));
  }

  /** Sending on keeps the one recovery a funder owns. */
  lemma SentKeeps(w: WalletState, u: WalletUpdate, w': WalletState)
    requires u.Finish? && WalletSafe(w)
    requires w.coin.Some? && CoinOf(w).metadata.Some? && w.pending.Some? && w.pending.value.PendingRecovery?
    requires CoinOf(w).outgoing.None?
    requires CoinOf(w).withdrawalIndex.Some? && CoinOf(w).withdrawalIndex.value < |CoinOf(w).history|
    requires var c := CoinOf(w);
             && w'.coin.Some? && CoinOf(w').outgoing.Some?
             && w' == w.(pending := None, coin := Some(c.(
                  history := [c.history[c.withdrawalIndex.value]], withdrawalIndex := Some(0),
                  currentCap := None, currentHandoff := None, outgoing := CoinOf(w').outgoing)))
    ensures Kept(w, u, w')
  {
  }

  lemma AcceptKeeps(cfg: Config, secret: Token, w: WalletState, u: WalletUpdate)
    requires u.Accept?
    requires WalletSafe(w) && ApplyWallet(cfg, secret, w, u).Ok?
    ensures Kept(w, u, OkOr(ApplyWallet(cfg, secret, w, u), w))
  {
    hide BeginFunding, JsonSize;
  }

  lemma UpdateKeeps(cfg: Config, secret: Token, w: WalletState, u: WalletUpdate, w': WalletState)
    requires WalletSafe(w) && ApplyWallet(cfg, secret, w, u) == Ok(w')
    ensures Kept(w, u, w')
  {
    hide ApplyWallet;
    if u.BeginRegister? || u.FinishRegister? { RegistrationKeeps(cfg, secret, w, u); }
    else if u.BeginFund? { BeginFundKeeps(cfg, secret, w, u); }
    else if u.JournalFunding? || u.JournalAttempt? { JournalKeeps(cfg, secret, w, u); }
    else if u.Record? || u.MarkBroadcast? { RecordKeeps(cfg, secret, w, u); }
    else if u.Secure? { SecureKeeps(cfg, secret, w, u); }
    else if u.Ask? || u.Begin? { TransferKeeps(cfg, secret, w, u); }
    else if u.Finish? { FinishKeeps(cfg, secret, w, u); }
    else { AcceptKeeps(cfg, secret, w, u); }
  }

  /** A wallet that could journal an exit: a verified owned recovery and nothing pending. */
  ghost predicate Exitable(cfg: Config, w: WalletState) {
    && w.pending.None? && w.coin.Some?
    && OwnedRecovery(CoinOf(w), cfg.network).Ok?
  }

  lemma ExitableRefusesFunding(cfg: Config, secret: Token, w: WalletState, u: WalletUpdate)
    requires Exitable(cfg, w) && (u.BeginFund? || u.JournalFunding? || u.JournalAttempt?)
    ensures ApplyWallet(cfg, secret, w, u).Err?
  {
  }

  lemma ExitableHasNothingPending(cfg: Config, secret: Token, w: WalletState, u: WalletUpdate)
    requires Exitable(cfg, w)
             && (u.BeginRegister? || u.FinishRegister? || u.Ask? || u.Record? || u.Secure? || u.Finish?)
    ensures ApplyWallet(cfg, secret, w, u).Err?
  {
    hide BeginFunding;
  }

  lemma ExitableStaysBroadcast(cfg: Config, secret: Token, w: WalletState, u: WalletUpdate)
    requires Exitable(cfg, w) && u.MarkBroadcast? && ApplyWallet(cfg, secret, w, u).Ok?
    ensures OkOr(ApplyWallet(cfg, secret, w, u), w) == w
  {
    hide BeginTransfer, AcceptTransfer, CompleteTransfer, BeginFunding, ValidateFinalizedFunding;
  }

  lemma ExitableAcceptsAgain(cfg: Config, secret: Token, w: WalletState, u: WalletUpdate)
    requires Exitable(cfg, w) && u.Accept? && ApplyWallet(cfg, secret, w, u).Ok?
    ensures OkOr(ApplyWallet(cfg, secret, w, u), w) == w
  {
  }

  /** Only beginning a transfer can still change such a wallet. */
  lemma OnlyBeginMovesExitable(cfg: Config, secret: Token, w: WalletState, u: WalletUpdate)
    requires Exitable(cfg, w) && !u.Begin?
    requires ApplyWallet(cfg, secret, w, u).Ok?
    ensures OkOr(ApplyWallet(cfg, secret, w, u), w) == w
  {
    hide *;
    if u.MarkBroadcast? {
      ExitableStaysBroadcast(cfg, secret, w, u);
    } else if u.Accept? {
      ExitableAcceptsAgain(cfg, secret, w, u);
    } else if u.BeginFund? || u.JournalFunding? || u.JournalAttempt? {
      ExitableRefusesFunding(cfg, secret, w, u);
    } else {
      ExitableHasNothingPending(cfg, secret, w, u);
    }
  }
}
