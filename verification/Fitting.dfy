/** Pending transfers always fit, and sent packages are sealed to their request, in every reachable state. */
module Fitting {
  import opened Wrappers
  import opened Bitcoin
  import opened Enclave
  import opened Client
  import opened Transfer
  import opened Validation
  import opened Funding
  import opened Wallet
  import opened Driver
  import opened DriverSafety
  import opened Updates
  import opened Protocol
  import opened Agreement
  import opened AgreementUpdates
  import opened AgreementSteps

  lemma BeginFits(cfg: Config, secret: Token, w: WalletState, u: WalletUpdate, w': WalletState)
    requires u.Begin? && Fits(w) && ApplyWallet(cfg, secret, w, u) == Ok(w')
    ensures Fits(w')
  {
    hide BeginFunding, JsonSize;
    BegunTransferFits(w, cfg.network, u.request, u.status, u.observed, cfg.minConfirmations, cfg.minReaction);
  }

  lemma FinishFits(cfg: Config, secret: Token, w: WalletState, u: WalletUpdate, w': WalletState)
    requires u.Finish? && ApplyWallet(cfg, secret, w, u) == Ok(w')
    ensures Fits(w')
  {
    hide BeginFunding, JsonSize;
  }

  lemma MarkFits(cfg: Config, secret: Token, w: WalletState, u: WalletUpdate, w': WalletState)
    requires u.MarkBroadcast? && Fits(w) && ApplyWallet(cfg, secret, w, u) == Ok(w')
    ensures Fits(w')
  {
    hide ApplyWallet, JsonSize;
    MarkBroadcastShape(cfg, secret, w, u);
  }

  lemma RecordFits(cfg: Config, secret: Token, w: WalletState, u: WalletUpdate, w': WalletState)
    requires u.Record? && Fits(w) && ApplyWallet(cfg, secret, w, u) == Ok(w')
    ensures Fits(w')
  {
    hide *;
    RecordShape(cfg, secret, w, u, w');
    if w' != w {
      ResponseFits(w, u.response);
    }
  }

  lemma ResponseFits(w: WalletState, response: SignResponse)
    requires Fits(w) && w.pending.Some? && w.pending.value.PendingRecovery?
    ensures Fits(w.(pending := Some(PendingRecovery(PurposeOf(w), Responded(AttemptOf(w), response)))))
  {
    hide JsonSize;
  }

  /** Without a transfer under way nothing has to fit yet. */
  predicate NothingSent(w: WalletState) {
    && (w.pending.Some? ==> !w.pending.value.PendingRecovery? || PurposeOf(w).Fund?)
    && (w.coin.Some? ==> CoinOf(w).outgoing.None?)
  }

  lemma NothingSentFits(w: WalletState)
    requires NothingSent(w)
    ensures Fits(w)
  {
  }

  lemma CoinlessFits(cfg: Config, secret: Token, w: WalletState, u: WalletUpdate, w': WalletState)
    requires u.BeginRegister? || u.FinishRegister? || u.Ask?
    requires ApplyWallet(cfg, secret, w, u) == Ok(w')
    ensures NothingSent(w')
  {
  }

  lemma AcceptFits(cfg: Config, secret: Token, w: WalletState, u: WalletUpdate, w': WalletState)
    requires u.Accept? && Fits(w) && ApplyWallet(cfg, secret, w, u) == Ok(w')
    ensures Fits(w')
  {
    hide ApplyWallet;
    AcceptShape(cfg, secret, w, u, w');
    if w' != w {
      NothingSentFits(w');
    }
  }

  /** A coin that journals funding was never sent. */
  lemma JournalFits(cfg: Config, secret: Token, w: WalletState, u: WalletUpdate, w': WalletState)
    requires u.BeginFund? || u.JournalFunding? || u.JournalAttempt?
    requires SentIsSpent(w) && ApplyWallet(cfg, secret, w, u) == Ok(w')
    ensures NothingSent(w')
  {
    hide ApplyWallet;
    if u.BeginFund? { BeginFundShape(cfg, secret, w, u, w'); }
    else if u.JournalFunding? { JournalFundingShape(cfg, secret, w, u, w'); }
    else { JournalAttemptShape(cfg, secret, w, u, w'); }
  }

  lemma SecureFits(cfg: Config, secret: Token, w: WalletState, u: WalletUpdate, w': WalletState)
    requires u.Secure? && SentIsSpent(w) && ApplyWallet(cfg, secret, w, u) == Ok(w')
    ensures NothingSent(w')
  {
    hide ApplyWallet;
    SecureShape(cfg, secret, w, u, w');
  }

  lemma UpdateFits(cfg: Config, secret: Token, w: WalletState, u: WalletUpdate, w': WalletState)
    requires Fits(w) && SentIsSpent(w) && ApplyWallet(cfg, secret, w, u) == Ok(w')
    ensures Fits(w')
  {
    hide *;
    if u.Begin? { BeginFits(cfg, secret, w, u, w'); }
    else if u.Finish? { FinishFits(cfg, secret, w, u, w'); }
    else if u.MarkBroadcast? { MarkFits(cfg, secret, w, u, w'); }
    else if u.Record? { RecordFits(cfg, secret, w, u, w'); }
    else if u.Accept? { AcceptFits(cfg, secret, w, u, w'); }
    else {
      if u.Secure? { SecureFits(cfg, secret, w, u, w'); }
      else if u.BeginFund? || u.JournalFunding? || u.JournalAttempt? { JournalFits(cfg, secret, w, u, w'); }
      else { CoinlessFits(cfg, secret, w, u, w'); }
      NothingSentFits(w');
    }
  }

  lemma ApplyFits(cfg: Config, native: Native, op: Update, vol: Native)
    requires Fits(native.wallet) && SentIsSpent(native.wallet) && Apply(cfg, native, op) == Ok(vol)
    ensures Fits(vol.wallet)
  {
    hide ApplyWallet, Fits, BuildSourceSweep;
    if op.WalletOp? {
      UpdateFits(cfg, native.fundingSecret, native.wallet, op.update, vol.wallet);
    }
  }

  lemma NodeFits(cfg: Config, node: Node, event: Event)
    requires Safe(cfg, node) && Fits(node.durable.wallet)
    ensures Fits(Step(cfg, node, event).durable.wallet)
  {
    hide Apply, StepSession, NativeValid, StartCommand, Fits, StepHand;
    if !event.Save? {
      OnlySavesMoveTheFile(cfg, node, event);
    } else if StepSave(cfg, node).Some? {
      SaveWrites(cfg, node);
      ApplyFits(cfg, node.durable, node.session.op, node.session.vol);
    }
  }

  lemma StepFits(sys: System, move: Move)
    requires AllSafe(sys) && AllFit(sys.nodes)
    ensures AllFit(Next(sys, move).nodes)
  {
    hide StepNode, Safe, Fits;
    if Enabled(sys, move) && move.WalletMove? {
      var next := Next(sys, move);
      forall j | 0 <= j < |next.nodes| ensures Fits(next.nodes[j].durable.wallet) {
        assert Fits(sys.nodes[j].durable.wallet);
        if j == move.i {
          assert Safe(sys.cfgs[j], sys.nodes[j]);
          NodeFits(sys.cfgs[j], sys.nodes[j], move.event);
        }
      }
    }
  }

  lemma {:induction false} RunFits(trace: seq<System>, k: nat)
    requires IsRun(Next, trace) && k < |trace|
    ensures AllFit(StateAt(trace, k).nodes)
  {
    hide Next, AllSafe, Agrees;
    if k == 0 {
      forall i | 0 <= i < |StateAt(trace, 0).nodes| ensures Fits(StateAt(trace, 0).nodes[i].durable.wallet) {
      }
    } else {
      RunFits(trace, k - 1);
      RunAgrees(trace, k - 1);
      assert Linked(Next, trace, k - 1);
      var move :| StateAt(trace, k) == Next(StateAt(trace, k - 1), move);
      StepFits(StateAt(trace, k - 1), move);
    }
  }

  lemma ReachableFits(sys: System)
    requires Reachable(sys)
    ensures AllFit(sys.nodes)
  {
    hide Next, AllFit;
    var trace :| IsRun(Next, trace) && StateAt(trace, |trace| - 1) == sys;
    RunFits(trace, |trace| - 1);
  }
}
