/**
 What a signer restart leaves of a wallet. Its coin's key never lives again, so
 an attempt that was pending stays pending for ever, and with it the exit stays
 blocked; a wallet with nothing pending exits without any signer.
 */
module Restarts {
  import opened Wrappers
  import opened Bitcoin
  import opened Enclave
  import opened Client
  import opened Transfer
  import opened Validation
  import opened Funding
  import opened Wallet
  import opened Exit
  import opened Driver
  import opened DriverSafety
  import opened Updates
  import opened Protocol
  import opened Agreement
  import opened AgreementUpdates
  import opened AgreementSteps
  import opened JointFacts
  import opened Resume
  import opened JointTheorems

  /** The two updates that apply a saved response. */
  predicate Applies(u: WalletUpdate) {
    u.Finish? || u.Secure?
  }

  /** The saved response is applied already, and only the save is missing. */
  predicate Closing(session: Session) {
    session.Dirty? && session.op.WalletOp? && Applies(session.op.update)
  }

  /** The same attempt is still pending. */
  predicate StillAsked(w: WalletState, w': WalletState) {
    && Attempting(w) && Attempting(w') && CoinOf(w').keys == CoinOf(w).keys
    && PurposeOf(w') == PurposeOf(w) && AttemptOf(w') == AttemptOf(w)
  }

  // ---------------------------------------------------------------------------
  // One wallet.

  lemma OnlyApplyingEnds(cfg: Config, secret: Token, w: WalletState, u: WalletUpdate, w': WalletState)
    requires Attempting(w) && !Applies(u) && ApplyWallet(cfg, secret, w, u) == Ok(w')
    ensures StillAsked(w, w')
  {
  }

  /** A completion needs the status of the key the coin was registered under. */
  lemma CompletionNeedsKey(w: WalletState, status: CoinStatus, ephemeral: Token, nonce: Token)
    requires w.coin.Some?
    requires CompleteTransfer(w, status, ephemeral, nonce).Ok? || CompleteFunding(w, status).Ok?
    ensures status.coinId == CoinOf(w).keys.coinId && status.signingKey == CoinOf(w).keys.enclave
  {
  }

  /** The status shown is not that of the key the coin was registered under. */
  predicate ShowsAnotherKey(w: WalletState, event: Event) {
    event.GotStatus? ==>
      event.status.coinId != CoinOf(w).keys.coinId || event.status.signingKey != CoinOf(w).keys.enclave
  }

  lemma ApplyingNeedsKey(cfg: Config, native: Native, cmd: Command, u: WalletUpdate, next: Pc, event: Event)
    requires Attempting(native.wallet) && ShowsAnotherKey(native.wallet, event) && event.GotStatus?
    requires Applies(u) ==> u.status == event.status
    ensures !Closing(Updating(cfg, native, cmd, WalletOp(u), next))
  {
    hide CompleteTransfer, CompleteFunding;
    if u.Finish? && CompleteTransfer(native.wallet, u.status, u.ephemeral, u.nonce).Ok? {
      CompletionNeedsKey(native.wallet, u.status, u.ephemeral, u.nonce);
    }
    if u.Secure? && CompleteFunding(native.wallet, u.status).Ok? {
      CompletionNeedsKey(native.wallet, u.status, 0, 0);
    }
  }

  lemma FundStepStaysOpen(cfg: Config, native: Native, p: FundPolicy, pc: Pc, event: Event)
    requires Attempting(native.wallet) && ShowsAnotherKey(native.wallet, event)
    ensures !Closing(Or(StepFund(cfg, native, p, pc, event), Idle))
  {
    hide Apply;
    if event.GotStatus? {
      ApplyingNeedsKey(cfg, native, FundCmd(p), Secure(event.status), FundHand, event);
    }
  }

  lemma SignStepStaysOpen(cfg: Config, native: Native, request: TransferRequest, pc: Pc, event: Event)
    requires Attempting(native.wallet) && ShowsAnotherKey(native.wallet, event)
    ensures !Closing(Or(StepSign(cfg, native, request, pc, event), Idle))
  {
    hide Apply;
    if event.GotStatus? {
      ApplyingNeedsKey(cfg, native, SignCmd(request), Finish(event.status, event.drawn.a, event.drawn.b), SignRelease,
                       event);
    }
  }

  lemma ExitStepStaysOpen(cfg: Config, native: Native, p: ExitPolicy, pc: Pc, event: Event)
    ensures !Closing(Or(StepExit(cfg, native, p, pc, event), Idle))
  {
    hide Apply, VerifyExitFunding, ValidatePackage;
  }

  lemma SweepStepStaysOpen(cfg: Config, native: Native, p: SweepPolicy, pc: Pc, event: Event)
    ensures !Closing(Or(StepSweep(cfg, native, p, pc, event), Idle))
  {
    hide Apply, Available, SourcesIntact, ValidateSweep;
  }

  lemma CommandStaysOpen(cfg: Config, native: Native, cmd: Command, pc: Pc, event: Event)
    requires Attempting(native.wallet) && ShowsAnotherKey(native.wallet, event)
    ensures !Closing(Or(StepSession(cfg, native, cmd, pc, event), Idle))
  {
    hide Apply, StepFund, StepSign, StepSweep, StepExit;
    match cmd
    case RegisterCmd =>
    case RequestCmd(_, _, _, _) =>
    case FundCmd(p) => FundStepStaysOpen(cfg, native, p, pc, event);
    case SignCmd(request) => SignStepStaysOpen(cfg, native, request, pc, event);
    case AcceptCmd(_, _) =>
    case ExitCmd(p) => ExitStepStaysOpen(cfg, native, p, pc, event);
    case SweepCmd(p) => SweepStepStaysOpen(cfg, native, p, pc, event);
  }

  lemma EventStaysOpen(cfg: Config, node: Node, event: Event)
    requires Attempting(node.durable.wallet) && ShowsAnotherKey(node.durable.wallet, event)
    requires !Closing(node.session) && StepNode(cfg, node, event).Some?
    ensures !Closing(Or(StepNode(cfg, node, event), (node, Silent)).0.session)
  {
    hide Apply, StepSession, NativeValid, DecryptTransfer;
    if event.Start? {
    } else if node.session.Run? {
      CommandStaysOpen(cfg, node.durable, node.session.cmd, node.session.pc, event);
    }
  }

  lemma EventKeepsAsking(cfg: Config, node: Node, event: Event)
    requires Safe(cfg, node) && Attempting(node.durable.wallet) && !Closing(node.session)
    ensures StillAsked(node.durable.wallet, Step(cfg, node, event).durable.wallet)
  {
    hide Apply, StepSession, StartCommand, NativeValid, StepHand, NativeSafe;
    if !event.Save? {
      OnlySavesMoveTheFile(cfg, node, event);
    } else if node.session.Dirty? {
      SaveWrites(cfg, node);
      SavedStillAsks(cfg, node.durable, node.session.op, node.session.vol);
    }
  }

  lemma SavedStillAsks(cfg: Config, native: Native, op: Update, vol: Native)
    requires Attempting(native.wallet) && Apply(cfg, native, op) == Ok(vol)
    requires !(op.WalletOp? && Applies(op.update))
    ensures StillAsked(native.wallet, vol.wallet)
  {
    hide ApplyWallet, Attempting;
    if op.WalletOp? {
      OnlyApplyingEnds(cfg, native.fundingSecret, native.wallet, op.update, vol.wallet);
    } else {
      OnlyWalletOpsMoveWallets(cfg, native, op);
    }
  }

  /** While anything is pending no exit is journaled, so no exit child was ever handed out. */
  lemma PendingHasNoExit(cfg: Config, node: Node)
    requires Safe(cfg, node) && Attempting(node.durable.wallet)
    ensures node.durable.exit.None? && node.handedChildren == {}
  {
    hide NativeValid, SessionSafe, OwnedRecovery;
    assert forall tx :: tx in node.handedChildren ==> ExitArmed(node.durable);
  }

  // ---------------------------------------------------------------------------
  // All wallets and the signer.

  lemma SigningRevivesNothing(world: World, r: SignRequest, w: WalletState)
    requires w.coin.Some? && !CoinLive(world, w)
    ensures !CoinLive(SignWorld(world, r), w)
  {
  }

  lemma RegisteringRevivesNothing(world: World, i: nat, r: RegisterRequest, w: WalletState)
    requires Known(world, i, w) && !CoinLive(world, w)
    ensures !CoinLive(RegisterWorld(world, r), w)
  {
  }

  /** A key that died never lives again: every registration gets a new one. */
  lemma KeyStaysDead(sys: System, i: nat, w: WalletState, move: Move)
    requires w.coin.Some? && Known(sys.world, i, w) && !CoinLive(sys.world, w)
    ensures !CoinLive(Next(sys, move).world, w)
  {
    hide StepNode, Known, CoinLive, Honest;
    if Enabled(sys, move) {
      match move
      case WalletMove(j, event) =>
        var step := StepNode(sys.cfgs[j], sys.nodes[j], event).value;
        SavingRevivesNothing(sys.world, j, step.0.durable.wallet, step.1, w);
      case DeliverSign(r) => SigningRevivesNothing(sys.world, r, w);
      case DeliverRegister(r) => RegisteringRevivesNothing(sys.world, i, r, w);
      case Restart => ForgettingRevivesNothing(sys.world, w);
    }
  }

  lemma SavingRevivesNothing(world: World, j: nat, v: WalletState, output: Output, w: WalletState)
    requires w.coin.Some? && !CoinLive(world, w)
    ensures !CoinLive(AfterWallet(world, j, v, output), w)
  {
  }

  lemma ForgettingRevivesNothing(world: World, w: WalletState)
    ensures !CoinLive(world.(coins := map[]), w)
  {
  }

  /** Wallet `i` has an attempt pending under a dead key, and no completion is about to be saved. */
  ghost predicate Pinned(sys: System, i: nat, w: WalletState) {
    && Reachable(sys) && IsWallet(sys, i, w) && Attempting(w) && !CoinLive(sys.world, w)
    && !Closing(NodeOf(sys, i).session)
  }

  lemma HonestShowsAnotherKey(world: World, i: nat, node: Node, event: Event)
    requires Known(world, i, node.durable.wallet) && !CoinLive(world, node.durable.wallet)
    requires CoinsOk(world) && Honest(world, node, event)
    ensures ShowsAnotherKey(node.durable.wallet, event)
  {
    hide Gone, Holding, PendingOk;
    if event.GotStatus? && event.status.coinId in world.coins {
      assert LiveOk(world, event.status.coinId);
    }
  }

  lemma OwnMoveStaysPinned(sys: System, i: nat, w: WalletState, event: Event)
    requires Pinned(sys, i, w) && Enabled(sys, WalletMove(i, event))
    ensures var node := Or(StepNode(CfgOf(sys, i), NodeOf(sys, i), event), (NodeOf(sys, i), Silent)).0;
            StillAsked(w, node.durable.wallet) && !Closing(node.session)
  {
    hide StepNode, Closing, Safe, Reachable, Known, NodesOk, MessagesOk, Honest;
    WalletKnown(sys, i, w);
    ReachableAgrees(sys);
    ReachableIsSafe(sys, i);
    HonestShowsAnotherKey(sys.world, i, NodeOf(sys, i), event);
    EventKeepsAsking(CfgOf(sys, i), NodeOf(sys, i), event);
    if event.Save? {
      SavedIsOpen(CfgOf(sys, i), NodeOf(sys, i));
    } else {
      EventStaysOpen(CfgOf(sys, i), NodeOf(sys, i), event);
    }
  }

  lemma SavedIsOpen(cfg: Config, node: Node)
    requires StepNode(cfg, node, Save).Some?
    ensures !Closing(Or(StepNode(cfg, node, Save), (node, Silent)).0.session)
  {
    hide Apply, StepSession, StartCommand, NativeValid;
  }

  lemma MoveStaysPinned(sys: System, i: nat, w: WalletState, move: Move)
    requires Pinned(sys, i, w)
    ensures var v := NodeOf(Next(sys, move), i).durable.wallet; Pinned(Next(sys, move), i, v) && StillAsked(w, v)
  {
    hide StepNode, Closing, Reachable, Known, Honest;
    WalletKnown(sys, i, w);
    NextIsReachable(sys, move);
    KeyStaysDead(sys, i, w, move);
    if move.WalletMove? && move.i == i && Enabled(sys, move) {
      OwnMoveStaysPinned(sys, i, w, move.event);
      var v := NodeOf(Next(sys, move), i).durable.wallet;
      SameKeyDies(Next(sys, move).world, w, v);
    }
  }

  lemma SameKeyDies(world: World, w: WalletState, v: WalletState)
    requires StillAsked(w, v) && !CoinLive(world, w)
    ensures !CoinLive(world, v)
  {
  }

  lemma {:induction false} StaysPinned(sys: System, i: nat, w: WalletState, moves: seq<Move>)
    requires Pinned(sys, i, w)
    ensures var done := After(sys, moves);
            Pinned(done, i, NodeOf(done, i).durable.wallet) && StillAsked(w, NodeOf(done, i).durable.wallet)
    decreases |moves|
  {
    hide Next, Reachable, CoinLive, Closing;
    if moves == [] {
    } else {
      var before := moves[..|moves| - 1];
      StaysPinned(sys, i, w, before);
      var mid := After(sys, before);
      MoveStaysPinned(mid, i, NodeOf(mid, i).durable.wallet, moves[|moves| - 1]);
    }
  }

  /**
   Once the signer that registered a coin is gone, an attempt that is pending
   stays pending in every run, whatever anybody does, unless its completion was
   already waiting to be saved; and no exit of this wallet is ever journaled or
   handed out. Signed or not, with or without a saved response makes no
   difference.
   */
  lemma {:induction false} PendingForever(sys: System, i: nat, w: WalletState, moves: seq<Move>)
    requires Pinned(sys, i, w)
    ensures var done := After(sys, moves);
            && StillAsked(w, NodeOf(done, i).durable.wallet)
            && NodeOf(done, i).durable.exit.None? && NodeOf(done, i).handedChildren == {}
  {
    hide Next, Reachable, Closing, Safe, CoinLive;
    StaysPinned(sys, i, w, moves);
    var done := After(sys, moves);
    ReachableIsSafe(done, i);
    PendingHasNoExit(CfgOf(done, i), NodeOf(done, i));
  }

  /** These moves leave wallet `i` with nothing pending. */
  ghost predicate Frees(sys: System, i: nat, moves: seq<Move>) {
    NodeOf(After(sys, moves), i).durable.wallet.pending.None?
  }

  /**
   Exactly which wallets with something pending get free of it after their
   coin's key died: those whose completion was applied before and only waits
   for its save.
   */
  lemma {:induction false} WhoGetsFree(sys: System, i: nat, w: WalletState)
    requires Reachable(sys) && IsWallet(sys, i, w) && Attempting(w) && !CoinLive(sys.world, w)
    ensures (exists moves :: Frees(sys, i, moves)) <==> Closing(NodeOf(sys, i).session)
  {
    hide Next, Reachable, Safe, CoinLive;
    if Closing(NodeOf(sys, i).session) {
      ClosingSaves(sys, i);
      assert After(sys, []) == sys;
      AfterAppend(sys, [], WalletMove(i, Save));
      assert Frees(sys, i, [] + [WalletMove(i, Save)]);
    } else if moves :| Frees(sys, i, moves) {
      PendingForever(sys, i, w, moves);
    }
  }

  lemma ClosingSaves(sys: System, i: nat)
    requires Reachable(sys) && i < |sys.nodes| && i < |sys.cfgs| && Closing(NodeOf(sys, i).session)
    ensures NodeOf(Next(sys, WalletMove(i, Save)), i).durable.wallet.pending.None?
  {
    hide Apply, StepSession, StartCommand, Reachable, Safe, NativeValid, StepNode;
    ReachableIsSafe(sys, i);
    ClosingIsWritten(CfgOf(sys, i), NodeOf(sys, i));
  }

  lemma ClosingIsWritten(cfg: Config, node: Node)
    requires Safe(cfg, node) && Closing(node.session)
    ensures StepNode(cfg, node, Save).Some?
    ensures Or(StepNode(cfg, node, Save), (node, Silent)).0.durable.wallet.pending.None?
  {
    hide StepSession, StartCommand, ApplyWallet, NativeValid, Apply, StepHand, NativeSafe;
    SaveWrites(cfg, node);
    AppliedIsFree(cfg, node.durable, node.session.op, node.session.vol);
  }

  lemma AppliedIsFree(cfg: Config, native: Native, op: Update, vol: Native)
    requires op.WalletOp? && Applies(op.update) && Apply(cfg, native, op) == Ok(vol)
    ensures vol.wallet.pending.None?
  {
    hide JsonSize;
  }

  // ---------------------------------------------------------------------------
  // Exits need no signer.

  /** An idle wallet with nothing pending, whose recovery is final and pays for this exit. */
  predicate MayExit(cfg: Config, node: Node, p: ExitPolicy, rate: u64, seen: ObservedFunding) {
    var w := node.durable.wallet;
    && node.session == Idle && node.durable.exit.None? && w.pending.None? && w.coin.Some?
    && VerifyExitFunding(CoinOf(w), seen, 1, None, false, None).Ok?
    && PreparedFor(cfg, w, p, rate, seen).Ok?
  }

  function ChosenRate(p: ExitPolicy, rate: u64): u64 {
    if p.feeRate.Some? then p.feeRate.value else rate
  }

  /** The journal this exit prepares. */
  function PreparedFor(cfg: Config, w: WalletState, p: ExitPolicy, rate: u64, seen: ObservedFunding)
    : Result<ExitJournal, WalletError>
  {
    PrepareExit(CoinOf(w), cfg.network, p.destination, seen.confirmations, ChosenRate(p, rate), p.maxFee)
  }

  /** A whole exit, as the events of one wallet: the chain is read twice, and nobody else is asked anything. */
  function ExitEvents(p: ExitPolicy, drawn: Drawn, rate: u64, seen: ObservedFunding): seq<Event> {
    [Start(ExitCmd(p), drawn), Observed(seen, None, false, rate), Save, Presence(false, false), Save, Hand]
  }

  lemma StartsExit(cfg: Config, node: Node, p: ExitPolicy, drawn: Drawn, rate: u64, seen: ObservedFunding)
    requires MayExit(cfg, node, p, rate, seen) && NativeValid(cfg, node.durable)
    ensures Step(cfg, node, Start(ExitCmd(p), drawn)) == node.(session := Run(ExitCmd(p), ExitFunding))
  {
    hide Apply, StepSession, StartFund, NativeValid, PrepareExit, StartAccept;
  }

  lemma PreparesExit(cfg: Config, node: Node, p: ExitPolicy, rate: u64, seen: ObservedFunding, journal: ExitJournal)
    requires node.session == Run(ExitCmd(p), ExitFunding) && node.durable.exit.None? && node.durable.wallet.coin.Some?
    requires VerifyExitFunding(CoinOf(node.durable.wallet), seen, 1, None, false, None).Ok?
    requires PreparedFor(cfg, node.durable.wallet, p, rate, seen) == Ok(journal)
    ensures Step(cfg, node, Observed(seen, None, false, rate))
            == node.(session := Dirty(ExitCmd(p), ExitReady(seen.confirmations),
                                      ExitPrepareOp(p, ChosenRate(p, rate), seen.confirmations),
                                      node.durable.(exit := Some(journal))))
  {
    hide ApplyWallet, StartCommand, VerifyExitFunding, PrepareExit, ReplacesPrepared;
  }

  lemma SavesExit(cfg: Config, node: Node, p: ExitPolicy, next: Pc, op: Update, vol: Native)
    requires node.session == Dirty(ExitCmd(p), next, op, vol) && NativeValid(cfg, vol)
    requires next.ExitReady? || next.ExitSubmit?
    ensures Step(cfg, node, Save) == node.(durable := vol, session := Run(ExitCmd(p), next))
  {
    hide Apply, NativeValid, StepSession, StartCommand;
  }

  lemma ArmsExit(cfg: Config, node: Node, p: ExitPolicy, confirmations: u32, journal: ExitJournal)
    requires node.session == Run(ExitCmd(p), ExitReady(confirmations)) && node.durable.exit == Some(journal)
    requires journal.stage == ExitPrepared && confirmations >= journal.package.recoveryDelay
    requires ExitPolicyMatches(node.durable, p)
    ensures Step(cfg, node, Presence(false, false))
            == node.(session := Dirty(ExitCmd(p), ExitSubmit(false), ExitArmOp,
                                      node.durable.(exit := Some(journal.(stage := SubmissionArmed)))))
  {
    hide ApplyWallet, StartCommand, ValidatePackage;
  }

  lemma HandsExit(cfg: Config, node: Node, p: ExitPolicy)
    requires node.session == Run(ExitCmd(p), ExitSubmit(false)) && node.durable.exit.Some?
    ensures Step(cfg, node, Hand)
            == node.(session := Run(ExitCmd(p), ExitConfirm),
                     handedChildren := node.handedChildren + {node.durable.exit.value.package.child})
  {
    hide Apply, StepSession, StartCommand, NativeValid, FundingTransaction;
  }

  /** The journal is the one of this policy, and it validates at either stage. */
  lemma PreparedMatches(
      cfg: Config, native: Native, p: ExitPolicy, rate: u64, seen: ObservedFunding, journal: ExitJournal)
    requires NativeValid(cfg, native) && native.exit.None? && native.wallet.coin.Some?
    requires PreparedFor(cfg, native.wallet, p, rate, seen) == Ok(journal)
    ensures var armed := journal.(stage := SubmissionArmed);
            && NativeValid(cfg, native.(exit := Some(journal))) && NativeValid(cfg, native.(exit := Some(armed)))
            && ExitPolicyMatches(native.(exit := Some(journal)), p)
            && journal.stage == ExitPrepared && seen.confirmations >= journal.package.recoveryDelay
  {
    hide OwnedRecovery, BuildExitChild, ValidateSweep;
    PreparedExitIsExact(CoinOf(native.wallet), cfg.network, p.destination, seen.confirmations, ChosenRate(p, rate),
                        p.maxFee);
  }

  lemma {:induction false} SixSteps(cfg: Config, node: Node, a: Event, b: Event, c: Event, d: Event, e: Event, f: Event)
    ensures Execute(cfg, node, [a, b, c, d, e, f])
         == Step(cfg, Step(cfg, Step(cfg, Step(cfg, Step(cfg, Step(cfg, node, a), b), c), d), e), f)
  {
    hide Step;
    assert [a, b, c, d, e, f][..5] == [a, b, c, d, e];
    assert [a, b, c, d, e][..4] == [a, b, c, d];
    assert [a, b, c, d][..3] == [a, b, c];
    assert [a, b, c][..2] == [a, b];
    assert [a, b][..1] == [a];
    assert [a][..0] == [];
    assert Execute(cfg, node, []) == node;
    assert Execute(cfg, node, [a]) == Step(cfg, node, a);
    assert Execute(cfg, node, [a, b]) == Step(cfg, Execute(cfg, node, [a]), b);
    assert Execute(cfg, node, [a, b, c]) == Step(cfg, Execute(cfg, node, [a, b]), c);
    assert Execute(cfg, node, [a, b, c, d]) == Step(cfg, Execute(cfg, node, [a, b, c]), d);
    assert Execute(cfg, node, [a, b, c, d, e]) == Step(cfg, Execute(cfg, node, [a, b, c, d]), e);
  }

  /**
   A wallet with nothing pending leaves without the signer: whenever its
   recovery is final and pays for the exit, the six events of an exit, none of
   them from a signer, hand out the child of an armed package.
   */
  lemma {:induction false} ExitsAlone(
      cfg: Config, node: Node, p: ExitPolicy, drawn: Drawn, rate: u64, seen: ObservedFunding)
    requires Safe(cfg, node) && MayExit(cfg, node, p, rate, seen)
    ensures var done := Execute(cfg, node, ExitEvents(p, drawn, rate, seen));
            && ExitAtSubmission(done.durable) && done.durable.wallet == node.durable.wallet
            && Ok(done.durable.exit.value.(stage := ExitPrepared))
               == PreparedFor(cfg, node.durable.wallet, p, rate, seen)
            && done.durable.exit.value.package.child in done.handedChildren
  {
    hide Step, Execute, PrepareExit, VerifyExitFunding, SessionSafe, HandedSafe, WalletSafe, NativeValid;
    var journal, native := PreparedFor(cfg, node.durable.wallet, p, rate, seen).value, node.durable;
    PreparedMatches(cfg, native, p, rate, seen, journal);
    StartsExit(cfg, node, p, drawn, rate, seen);
    var n1 := node.(session := Run(ExitCmd(p), ExitFunding));
    PreparesExit(cfg, n1, p, rate, seen, journal);
    var n2 := Step(cfg, n1, Observed(seen, None, false, rate));
    SavesExit(cfg, n2, p, ExitReady(seen.confirmations), n2.session.op, n2.session.vol);
    var n3 := Step(cfg, n2, Save);
    ArmsExit(cfg, n3, p, seen.confirmations, journal);
    var n4 := Step(cfg, n3, Presence(false, false));
    SavesExit(cfg, n4, p, ExitSubmit(false), n4.session.op, n4.session.vol);
    HandsExit(cfg, Step(cfg, n4, Save), p);
    SixSteps(cfg, node, Start(ExitCmd(p), drawn), Observed(seen, None, false, rate), Save, Presence(false, false), Save,
             Hand);
  }
}
