/** The world only grows: what stays true of a wallet or a message when others move. */
module Growth {
  import opened Wrappers
  import opened Bitcoin
  import opened Enclave
  import opened Client
  import opened Transfer
  import opened Validation
  import opened Wallet
  import opened Driver
  import opened DriverSafety
  import opened Ledger
  import opened Protocol
  import opened Agreement

  ghost predicate Extends(a: CoinLog, b: CoinLog) {
    a.coinId == b.coinId && a.init == b.init && a.entries <= b.entries
  }

  ghost predicate Grows(a: World, b: World) {
    && (forall key :: key in a.logs ==> key in b.logs && Extends(a.logs[key], b.logs[key]))
    && (forall token :: token in a.owner ==> token in b.owner && b.owner[token] == a.owner[token])
    && (forall id :: id in a.adopted ==> id in b.adopted && b.adopted[id] == a.adopted[id])
    && (forall key :: key in a.meta ==> key in b.meta && b.meta[key] == a.meta[key])
    && a.sent <= b.sent && a.requests <= b.requests && a.replies <= b.replies && a.packages <= b.packages
    && a.regReplies <= b.regReplies
    && a.nextToken <= b.nextToken
  }

  /** Nothing that concerns this wallet's own position changed. */
  ghost predicate Untouched(a: World, b: World, w: WalletState) {
    && (w.coin.Some? ==>
          && (Key(CoinOf(w)) in b.meta ==> Key(CoinOf(w)) in a.meta)
          && (Active(w) && Key(CoinOf(w)) in a.logs ==>
                Key(CoinOf(w)) in b.logs && b.logs[Key(CoinOf(w))] == a.logs[Key(CoinOf(w))]))
    && (w.coin.None? && w.pending.Some? && w.pending.value.PendingRegistration? ==>
          w.pending.value.registration.request.coinId !in b.adopted)
  }

  lemma AuthAtGrows(a: CoinLog, b: CoinLog, p: nat)
    requires Extends(a, b) && p <= |a.entries|
    ensures AuthAt(b, p) == AuthAt(a, p)
  {
    if p > 0 {
      assert b.entries[p - 1] == a.entries[p - 1];
    }
  }

  lemma PrefixGrows(a: CoinLog, b: CoinLog, p: nat)
    requires Extends(a, b) && p <= |a.entries|
    ensures b.entries[..p] == a.entries[..p]
  {
  }

  lemma StatusGrows(a: World, b: World, status: CoinStatus)
    requires Grows(a, b) && StatusOk(a, status)
    ensures StatusOk(b, status)
  {
    AuthAtGrows(a.logs[status.signingKey.secret], b.logs[status.signingKey.secret], status.count);
  }

  lemma InLogGrows(a: CoinLog, b: CoinLog, r: SignRequest)
    requires Extends(a, b) && InLog(a, r)
    ensures InLog(b, r)
  {
    var p :| 0 <= p < |a.entries| && a.entries[p].request == r;
    assert b.entries[p].request == r;
  }

  lemma UsedCapGrows(a: CoinLog, b: CoinLog, cap: Token)
    requires Extends(a, b) && UsedCap(a, cap)
    ensures UsedCap(b, cap)
  {
    var p :| 0 <= p < |a.entries| && a.entries[p].request.cap == cap;
    assert b.entries[p].request.cap == cap;
  }

  lemma SentByGrows(a: World, b: World, w: WalletState, r: SignRequest)
    requires Grows(a, b) && SentBy(a, w, r)
    ensures SentBy(b, w, r)
  {
    if InLog(LogFor(a, CoinOf(w)), r) {
      InLogGrows(LogFor(a, CoinOf(w)), LogFor(b, CoinOf(w)), r);
    }
  }

  lemma GoneGrows(a: CoinLog, b: CoinLog, coin: WalletCoin)
    requires Extends(a, b) && Gone(a, coin)
    ensures Gone(b, coin)
  {
    var q := |coin.outgoing.value.envelope.ciphertext.payload.history|;
    AuthAtGrows(a, b, q);
    PrefixGrows(a, b, q);
    assert b.entries[q - 2] == a.entries[q - 2];
  }

  lemma SentOnGrows(a: World, b: World, i: nat, coin: WalletCoin)
    requires Grows(a, b) && Key(coin) in a.logs
    requires SentOn(a, i, LogFor(a, coin), coin)
    ensures SentOn(b, i, LogFor(b, coin), coin)
  {
    var q := |coin.outgoing.value.envelope.ciphertext.payload.history|;
    assert LogFor(b, coin).entries[q - 1] == LogFor(a, coin).entries[q - 1];
  }

  lemma CoinBaseGrows(a: World, b: World, w: WalletState)
    requires Grows(a, b) && Untouched(a, b, w) && w.coin.Some? && CoinBase(a, CoinOf(w))
    ensures CoinBase(b, CoinOf(w))
  {
  }

  lemma PendingGrows(a: World, b: World, i: nat, log: CoinLog, w: WalletState)
    requires Grows(a, b) && w.coin.Some? && PendingOk(a, i, log, w)
    ensures PendingOk(b, i, log, w)
  {
  }

  lemma AcceptedGrows(a: CoinLog, b: CoinLog, coin: WalletCoin)
    requires Extends(a, b) && AcceptedOk(a, coin)
    ensures AcceptedOk(b, coin)
  {
    if coin.acceptedRequest.Some? && UsedCap(a, coin.acceptedRequest.value.nextCapHash.cap) {
      UsedCapGrows(a, b, coin.acceptedRequest.value.nextCapHash.cap);
    }
  }

  lemma WalletGrows(a: World, b: World, i: nat, w: WalletState)
    requires Grows(a, b) && Untouched(a, b, w) && WalletOk(a, i, w)
    ensures WalletOk(b, i, w)
  {
    hide Gone;
    if w.coin.Some? {
      var coin := CoinOf(w);
      CoinBaseGrows(a, b, w);
      AcceptedGrows(LogFor(a, coin), LogFor(b, coin), coin);
      if coin.currentCap.Some? {
        PendingGrows(a, b, i, LogFor(a, coin), w);
      } else {
        GoneGrows(LogFor(a, coin), LogFor(b, coin), coin);
        SentOnGrows(a, b, i, coin);
      }
    }
  }

  lemma DeliveredGrows(a: World, b: World, envelope: TransferEnvelope)
    requires Grows(a, b) && Delivered(a, envelope)
    ensures Delivered(b, envelope)
  {
    var s :| (s, envelope) in a.packages;
    assert (s, envelope) in b.packages;
  }

  /** A coin ID this wallet just drew has not been taken up by anyone else. */
  ghost predicate DrawnIdFree(b: World, session: Session) {
    session.Dirty? && session.op.WalletOp? && session.op.update.BeginRegister? ==>
      session.op.update.coinId !in b.adopted
  }

  lemma SessionGrows(a: World, b: World, i: nat, node: Node)
    requires Grows(a, b) && SessionOk(a, i, node) && DrawnIdFree(b, node.session)
    ensures SessionOk(b, i, node)
  {
    match node.session
    case Idle =>
    case Run(cmd, pc) => CmdPcGrows(a, b, cmd, pc);
    case Dirty(cmd, next, op, _) =>
      CmdPcGrows(a, b, cmd, next);
      OpGrows(a, b, i, node.durable.wallet, op);
  }

  lemma CmdPcGrows(a: World, b: World, cmd: Command, pc: Pc)
    requires Grows(a, b) && CmdOk(a, cmd) && PcOk(a, pc)
    ensures CmdOk(b, cmd) && PcOk(b, pc)
  {
    if cmd.AcceptCmd? { DeliveredGrows(a, b, cmd.envelope); }
    if pc.FundSource? || pc.SignObserve? { StatusGrows(a, b, pc.status); }
  }

  lemma OpGrows(a: World, b: World, i: nat, w: WalletState, op: Update)
    requires Grows(a, b) && OpOk(a, i, w, op)
    requires op.WalletOp? && op.update.BeginRegister? ==> op.update.coinId !in b.adopted
    ensures OpOk(b, i, w, op)
  {
    if op.WalletOp? {
      match op.update
      case FinishRegister(status) => StatusGrows(a, b, status);
      case BeginFund(_, status, _, _, _) => StatusGrows(a, b, status);
      case JournalAttempt(status, _, _, _) => StatusGrows(a, b, status);
      case Begin(_, status, _) => StatusGrows(a, b, status);
      case Accept(_, envelope, _, _) => DeliveredGrows(a, b, envelope);
      case _ =>
    }
  }

  lemma ReplyGrows(a: World, b: World, e: Entry)
    requires Grows(a, b) && ReplyOk(a, e)
    requires forall id, key :: key in a.logs && Live(b, id, key) ==> Live(a, id, key)
    requires a.adopted[e.request.coinId] in a.logs
    ensures ReplyOk(b, e)
  {
  }

  lemma LogGrows(a: World, b: World, key: Token)
    requires Grows(a, b) && key in a.logs && LogOk(a, key) && b.logs[key] == a.logs[key]
    ensures LogOk(b, key)
  {
  }
}
