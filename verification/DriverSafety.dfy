/**
 What holds in every run of one wallet's commands, whatever the signer, the
 chain and the crashes do: the events of the environment are unconstrained.
 */
module DriverSafety {
  import opened Wrappers
  import opened Bitcoin
  import opened Client
  import opened Transfer
  import opened Validation
  import opened Funding
  import opened Wallet
  import opened Exit
  import opened Driver
  import opened Updates

  /** A disabled event changes nothing. */
  function Step(cfg: Config, node: Node, event: Event): Node {
    var next := StepNode(cfg, node, event);
    if next.Some? then next.value.0 else node
  }

  function Execute(cfg: Config, node: Node, events: seq<Event>): Node {
    if events == [] then node else Step(cfg, Execute(cfg, node, events[..|events| - 1]), events[|events| - 1])
  }

  // ---------------------------------------------------------------------------
  // The invariant.

  predicate ExitArmed(native: Native) {
    native.exit.Some? && native.exit.value.stage != ExitPrepared
  }

  predicate SweepStarted(native: Native) {
    native.sweep.Some? && native.sweep.value.stage != SweepPrepared
  }

  /** Durably at exactly the stage in which its bytes may leave. */
  predicate ExitAtSubmission(native: Native) {
    native.exit.Some? && native.exit.value.stage == SubmissionArmed
  }

  predicate SweepAtSubmission(native: Native) {
    native.sweep.Some? && native.sweep.value.stage == SweepArmed
  }

  /** The current sweep was never armed, or it was seen confirmed deep enough. */
  ghost predicate SweepReplaceable(native: Native, settled: set<Tx>) {
    SweepStarted(native) ==> SweepTxOf(native) in settled
  }

  ghost predicate NativeSafe(cfg: Config, native: Native) {
    && NativeValid(cfg, native)
    && WalletSafe(native.wallet)
    && (native.exit.Some? ==> Exitable(cfg, native.wallet))
    && Reserved(native) !! SweepSources(native)
    && (cfg.backend.CoreRpc? ==> native.sweep.None?)
  }

  /** What was checked before `op` was applied to the loaded copy. */
  ghost predicate OpSafe(cfg: Config, native: Native, settled: set<Tx>, op: Update) {
    match op
    case WalletOp(u) =>
      && (u.Begin? ==> native.exit.None?)
      && (u.BeginFund? ==> u.source.outpoint !in SweepSources(native))
      && (u.JournalFunding? ==> cfg.backend.CoreRpc?)
    case ExitPrepareOp(_, _, _) => native.wallet.pending.None? && !ExitArmed(native)
    case ExitArmOp => true
    case ExitObserveOp => true
    case SweepPrepareOp(sources, _) =>
      cfg.backend.Explorer? && Outpoints(sources) !! Reserved(native) && SweepReplaceable(native, settled)
    case SweepArmOp => cfg.backend.Explorer?
    case SweepObserveOp(_) => cfg.backend.Explorer?
  }

  ghost predicate PcSafe(cfg: Config, native: Native, settled: set<Tx>, cmd: Command, pc: Pc) {
    && (cmd.SignCmd? && pc != SignRelease ==> native.exit.None?)
    && (pc.FundHand? ==> cmd.FundCmd?)
    && (cmd.ExitCmd? ==> native.wallet.pending.None?)
    && (pc.ExitChildOnly? || pc.ExitSubmit? ==> ExitAtSubmission(native))
    && (cmd.SweepCmd? ==> cfg.backend.Explorer?)
    && (pc.SweepHand? ==> SweepAtSubmission(native))
    && (pc.SweepReplace? || pc.SweepGather? ==> SweepReplaceable(native, settled))
  }

  /** Where a command goes after the pending save. */
  ghost predicate NextSafe(cfg: Config, native: Native, settled: set<Tx>, cmd: Command, op: Update, next: Pc) {
    && (cmd.SignCmd? && next != SignRelease ==> native.exit.None?)
    && (next.FundHand? ==> cmd.FundCmd?)
    && (cmd.ExitCmd? ==> native.wallet.pending.None?)
    && (cmd.ExitCmd? || cmd.SweepCmd? <==> !op.WalletOp?)
    && (next.ExitChildOnly? || next.ExitSubmit? ==> op.ExitArmOp?)
    && (cmd.SweepCmd? ==> cfg.backend.Explorer?)
    && (next.SweepHand? ==> op.SweepArmOp?)
    && !next.SweepReplace? && !next.SweepGather?
    && (next.SweepMark? ==>
          cmd.SweepCmd? && op.SweepArmOp? && native.sweep.Some? && next.tx == SweepTxOf(native)
          && (next.confirmations >= cfg.minConfirmations ==> next.tx in settled))
    && (next.SweepSettled? ==>
          cmd.SweepCmd? && op.SweepObserveOp? && native.sweep.Some?
          && (next.confirmations >= cfg.minConfirmations ==> SweepTxOf(native) in settled))
    && (next.ExitMark? ==> cmd.ExitCmd?)
  }

  ghost predicate SessionSafe(cfg: Config, native: Native, settled: set<Tx>, session: Session) {
    match session
    case Idle => true
    case Run(cmd, pc) => PcSafe(cfg, native, settled, cmd, pc)
    case Dirty(cmd, next, op, vol) =>
      && Apply(cfg, native, op) == Ok(vol)
      && OpSafe(cfg, native, settled, op)
      && NextSafe(cfg, native, settled, cmd, op, next)
  }

  /** The transaction is the saved one, and its recovery and withdrawal secret are durable. */
  ghost predicate FundingSecured(native: Native, tx: Tx) {
    && native.wallet.coin.Some? && native.wallet.coin.value.funding.Some? && native.wallet.coin.value.metadata.Some?
    && var coin := native.wallet.coin.value;
       var metadata := coin.metadata.value;
       && coin.funding.value.tx == tx && coin.funding.value.stage != FundingPrepared
       && ComputeTxid(tx) == metadata.outpoint.txid
       && metadata.outpoint.vout < |tx.outputs|
       && tx.outputs[metadata.outpoint.vout] == TxOut(metadata.amount, FundingScript(metadata.keys))
       && |coin.history| == 1 && GenuineRecovery(metadata, coin.history[0])
       && coin.withdrawalSecret.Some? && Point(coin.withdrawalSecret.value) == coin.history[0].withdrawal
  }

  ghost predicate HandedSafe(node: Node) {
    && (forall tx :: tx in node.handedFunding ==> FundingSecured(node.durable, tx))
    && (forall tx :: tx in node.handedChildren ==>
          ExitArmed(node.durable) && tx == node.durable.exit.value.package.child)
    && (forall tx :: tx in node.handedSweeps ==>
          tx in node.settled || (SweepStarted(node.durable) && tx == SweepTxOf(node.durable)))
  }

  ghost predicate Safe(cfg: Config, node: Node) {
    && NativeSafe(cfg, node.durable)
    && SessionSafe(cfg, node.durable, node.settled, node.session)
    && HandedSafe(node)
  }

  // ---------------------------------------------------------------------------
  // Saving.

  /** What no later save can undo. */
  ghost predicate Later(native: Native, vol: Native) {
    && FundingKept(native.wallet, vol.wallet)
    && CoinKept(native.wallet, vol.wallet)
    && (native.exit.Some? ==> vol.exit.Some? && vol.wallet == native.wallet)
    && (ExitArmed(native) ==> ExitArmed(vol) && vol.exit.value.package == native.exit.value.package)
  }

  /** How one saved update may change the file. */
  ghost predicate Advances(cfg: Config, native: Native, settled: set<Tx>, vol: Native) {
    && Later(native, vol)
    && (SweepStarted(native) ==>
          SweepTxOf(native) in settled || (SweepStarted(vol) && SweepTxOf(vol) == SweepTxOf(native)))
  }

  lemma WalletOpSaves(cfg: Config, native: Native, settled: set<Tx>, u: WalletUpdate)
    requires NativeSafe(cfg, native) && OpSafe(cfg, native, settled, WalletOp(u))
    requires Apply(cfg, native, WalletOp(u)).Ok?
    ensures var vol := OkOr(Apply(cfg, native, WalletOp(u)), native);
            NativeSafe(cfg, vol) && Advances(cfg, native, settled, vol)
  {
    hide ApplyWallet, BuildSourceSweep, WalletSafe;
    var w := native.wallet;
    var w' := OkOr(ApplyWallet(cfg, native.fundingSecret, w, u), w);
    UpdateKeeps(cfg, native.fundingSecret, w, u, w');
    WalletMoveSaves(cfg, native, settled, u, w');
  }

  lemma WalletMoveSaves(cfg: Config, native: Native, settled: set<Tx>, u: WalletUpdate, w': WalletState)
    requires NativeSafe(cfg, native) && OpSafe(cfg, native, settled, WalletOp(u))
    requires ApplyWallet(cfg, native.fundingSecret, native.wallet, u) == Ok(w')
    requires Kept(native.wallet, u, w')
    ensures NativeSafe(cfg, native.(wallet := w')) && Advances(cfg, native, settled, native.(wallet := w'))
  {
    hide ApplyWallet, ValidateSweep, ValidatePackage, Exitable, FundPending;
    if native.exit.Some? {
      OnlyBeginMovesExitable(cfg, native.fundingSecret, native.wallet, u);
    }
  }

  lemma ExitPrepareSaves(cfg: Config, native: Native, settled: set<Tx>, op: Update)
    requires op.ExitPrepareOp? && NativeSafe(cfg, native) && OpSafe(cfg, native, settled, op)
    requires Apply(cfg, native, op).Ok?
    ensures var vol := OkOr(Apply(cfg, native, op), native);
            NativeSafe(cfg, vol) && Advances(cfg, native, settled, vol) && vol.wallet == native.wallet
  {
    hide ApplyWallet, PrepareExit, ValidatePackage, ValidateSweep;
    var coin, p := native.wallet.coin.value, op.exit;
    PreparedExitIsOwned(coin, cfg.network, p.destination, op.confirmations, op.rate, p.maxFee);
  }

  lemma PreparedExitIsOwned(
      coin: WalletCoin, network: NetworkId, destination: Script, confirmations: u32, rate: u64, maxFee: u64)
    requires PrepareExit(coin, network, destination, confirmations, rate, maxFee).Ok?
    ensures var journal := PrepareExit(coin, network, destination, confirmations, rate, maxFee).value;
            journal.package.network == network && ValidatePackage(journal.package, coin).Ok?
                && OwnedRecovery(coin, network).Ok?
  {
  }

  /** Only the stage of the saved package moves. */
  lemma ExitStageSaves(cfg: Config, native: Native, settled: set<Tx>, stage: ExitStage)
    requires NativeSafe(cfg, native) && native.exit.Some? && stage != ExitPrepared
    ensures var vol := native.(exit := Some(native.exit.value.(stage := stage)));
            NativeSafe(cfg, vol) && Advances(cfg, native, settled, vol)
  {
  }

  lemma ExitOpSaves(cfg: Config, native: Native, settled: set<Tx>, op: Update)
    requires op.ExitPrepareOp? || op.ExitArmOp? || op.ExitObserveOp?
    requires NativeSafe(cfg, native) && OpSafe(cfg, native, settled, op)
    requires Apply(cfg, native, op).Ok?
    ensures var vol := OkOr(Apply(cfg, native, op), native);
            && NativeSafe(cfg, vol) && Advances(cfg, native, settled, vol)
            && (op.ExitArmOp? ==> ExitAtSubmission(vol))
            && vol.wallet == native.wallet
  {
    hide ApplyWallet, BuildFromSorted, NativeSafe, VerifyRecovery, Later;
    if op.ExitPrepareOp? {
      ExitPrepareSaves(cfg, native, settled, op);
    } else {
      ExitStageSaves(cfg, native, settled, if op.ExitArmOp? then SubmissionArmed else ExitObserved);
    }
  }

  lemma SweepPrepareSaves(cfg: Config, native: Native, settled: set<Tx>, sources: seq<SourceUtxo>, p: SweepPolicy)
    requires NativeSafe(cfg, native) && OpSafe(cfg, native, settled, SweepPrepareOp(sources, p))
    requires Apply(cfg, native, SweepPrepareOp(sources, p)).Ok?
    ensures var vol := OkOr(Apply(cfg, native, SweepPrepareOp(sources, p)), native);
            NativeSafe(cfg, vol) && Advances(cfg, native, settled, vol)
  {
    hide ApplyWallet, BuildSourceSweep, BuildExitChild, VerifyRecovery;
    PreparedSweepValidates(cfg.rank, native.fundingSecret, cfg.network, sources, p.destination, p.feeRate, p.maxFee);
  }

  /** Only the stage of the saved sweep moves. */
  lemma SweepStageSaves(cfg: Config, native: Native, settled: set<Tx>, stage: SweepStage)
    requires NativeSafe(cfg, native) && native.sweep.Some? && stage != SweepPrepared
    ensures var vol := native.(sweep := Some(native.sweep.value.(stage := stage)));
            NativeSafe(cfg, vol) && Advances(cfg, native, settled, vol) && SweepStarted(vol)
  {
    hide ValidateSweep, ValidatePackage, Exitable;
    SweepIgnoresStage(cfg.rank, native.fundingSecret, native.sweep.value, stage);
  }

  lemma SweepIgnoresStage(rank: Txid -> nat, secret: Token, journal: SweepJournal, stage: SweepStage)
    ensures ValidateSweep(rank, secret, journal.(stage := stage)) == ValidateSweep(rank, secret, journal)
  {
  }

  lemma SweepOpSaves(cfg: Config, native: Native, settled: set<Tx>, op: Update)
    requires op.SweepArmOp? || op.SweepObserveOp?
    requires NativeSafe(cfg, native) && OpSafe(cfg, native, settled, op)
    requires Apply(cfg, native, op).Ok?
    ensures var vol := OkOr(Apply(cfg, native, op), native);
            && NativeSafe(cfg, vol) && Advances(cfg, native, settled, vol)
            && SweepStarted(vol) && native.sweep.Some? && SweepTxOf(vol) == SweepTxOf(native)
            && (op.SweepArmOp? ==> SweepAtSubmission(vol))
            && vol.wallet == native.wallet
  {
    hide ApplyWallet, BuildSourceSweep, NativeSafe, Advances, OpSafe;
    SweepStageSaves(cfg, native, settled, if op.SweepArmOp? then SweepArmed else SweepObserved);
  }

  /** What saving `op` leaves of the file, as far as the next point of the command depends on it. */
  ghost predicate SavedFor(native: Native, op: Update, vol: Native) {
    && (op.ExitArmOp? ==> ExitAtSubmission(vol))
    && (op.SweepArmOp? ==> SweepAtSubmission(vol))
    && (op.SweepArmOp? || op.SweepObserveOp? ==>
          SweepStarted(vol) && native.sweep.Some? && SweepTxOf(vol) == SweepTxOf(native))
    && (op.WalletOp? ==> vol.exit == native.exit && vol.sweep == native.sweep)
    && (!op.WalletOp? ==> vol.wallet == native.wallet)
  }

  lemma OpSaves(cfg: Config, native: Native, settled: set<Tx>, op: Update, vol: Native)
    requires NativeSafe(cfg, native) && OpSafe(cfg, native, settled, op)
    requires Apply(cfg, native, op) == Ok(vol)
    ensures NativeSafe(cfg, vol) && Advances(cfg, native, settled, vol)
    ensures SavedFor(native, op, vol)
    ensures op.WalletOp? ==> vol.fundingSecret == native.fundingSecret
  {
    hide ApplyWallet, BuildSourceSweep, NativeSafe, VerifyRecovery, OpSafe;
    match op
    case WalletOp(u) => WalletOpSaves(cfg, native, settled, u);
    case ExitPrepareOp(_, _, _) => ExitOpSaves(cfg, native, settled, op);
    case ExitArmOp => ExitOpSaves(cfg, native, settled, op);
    case ExitObserveOp => ExitOpSaves(cfg, native, settled, op);
    case SweepPrepareOp(sources, p) => SweepPrepareSaves(cfg, native, settled, sources, p);
    case SweepArmOp => SweepOpSaves(cfg, native, settled, op);
    case SweepObserveOp(_) => SweepOpSaves(cfg, native, settled, op);
  }

  /** Saving never refuses: what a command saves always passes the validation of the next load. */
  lemma SaveWrites(cfg: Config, node: Node)
    requires Safe(cfg, node) && node.session.Dirty?
    ensures var s := node.session;
            && Written(cfg, node.durable, s.cmd, s.vol) == Some(s.vol)
            && NativeSafe(cfg, s.vol) && Advances(cfg, node.durable, node.settled, s.vol)
  {
    hide Apply, NativeValid, Exitable, HandedSafe, Advances;
    var s := node.session;
    OpSaves(cfg, node.durable, node.settled, s.op, s.vol);
    assert NativeValid(cfg, s.vol) && NativeValid(cfg, node.durable);
    if SavesWalletOnly(cfg, s.cmd) {
      assert node.durable.(wallet := s.vol.wallet) == s.vol;
    }
  }

  lemma AfterSaveSafe(cfg: Config, native: Native, settled: set<Tx>, cmd: Command, op: Update, next: Pc, vol: Native)
    requires NativeSafe(cfg, native) && OpSafe(cfg, native, settled, op)
             && NextSafe(cfg, native, settled, cmd, op, next)
    requires Apply(cfg, native, op) == Ok(vol)
    ensures SessionSafe(cfg, vol, settled, AfterSave(cfg, vol, cmd, next))
  {
    hide *;
    OpSaves(cfg, native, settled, op, vol);
    AfterSaveRoutes(cfg, native, settled, cmd, op, next, vol);
  }

  /** Points at which a saved command goes on elsewhere. */
  predicate Routed(next: Pc) {
    next.Done? || next.FundRouted? || next.ExitMark? || next.SweepMark? || next.SweepSettled?
  }

  lemma PlainNextIsSafe(
      cfg: Config, native: Native, settled: set<Tx>, cmd: Command, op: Update, next: Pc, vol: Native)
    requires NextSafe(cfg, native, settled, cmd, op, next) && SavedFor(native, op, vol) && !Routed(next)
    ensures AfterSave(cfg, vol, cmd, next) == Run(cmd, next) && PcSafe(cfg, vol, settled, cmd, next)
  {
    hide Updating, RouteFund;
  }

  lemma RoutedNextIsSafe(
      cfg: Config, native: Native, settled: set<Tx>, cmd: Command, op: Update, next: Pc, vol: Native)
    requires NextSafe(cfg, native, settled, cmd, op, next) && SavedFor(native, op, vol) && Routed(next)
    ensures SessionSafe(cfg, vol, settled, AfterSave(cfg, vol, cmd, next))
  {
    hide Apply;
  }

  lemma AfterSaveRoutes(
      cfg: Config, native: Native, settled: set<Tx>, cmd: Command, op: Update, next: Pc, vol: Native)
    requires NextSafe(cfg, native, settled, cmd, op, next) && SavedFor(native, op, vol)
    ensures SessionSafe(cfg, vol, settled, AfterSave(cfg, vol, cmd, next))
  {
    hide AfterSave, NextSafe, SavedFor, PcSafe;
    if Routed(next) {
      RoutedNextIsSafe(cfg, native, settled, cmd, op, next, vol);
    } else {
      PlainNextIsSafe(cfg, native, settled, cmd, op, next, vol);
    }
  }

  lemma SaveKeepsSafe(cfg: Config, node: Node)
    requires Safe(cfg, node) && StepSave(cfg, node).Some?
    ensures Safe(cfg, Or(StepSave(cfg, node), node))
  {
    hide Apply, NativeValid, NativeSafe, HandedSafe;
    SaveWrites(cfg, node);
    var s := node.session;
    AfterSaveSafe(cfg, node.durable, node.settled, s.cmd, s.op, s.next, s.vol);
    HandedKept(cfg, node, s.vol, AfterSave(cfg, s.vol, s.cmd, s.next));
  }

  lemma HandedKept(cfg: Config, node: Node, vol: Native, session: Session)
    requires HandedSafe(node) && Advances(cfg, node.durable, node.settled, vol)
    ensures HandedSafe(node.(durable := vol, session := session))
  {
    var node' := node.(durable := vol, session := session);
    forall tx | tx in node'.handedFunding ensures FundingSecured(vol, tx) {
      assert FundingSecured(node.durable, tx);
    }
  }

  // ---------------------------------------------------------------------------
  // Every other event.

  lemma StartSweepIsSafe(cfg: Config, native: Native, settled: set<Tx>, p: SweepPolicy, drawn: Drawn)
    ensures SessionSafe(cfg, native, settled, StartCommand(cfg, native, SweepCmd(p), drawn))
  {
    hide Apply, StartExit, StartAccept;
  }

  lemma StartSignIsSafe(cfg: Config, native: Native, settled: set<Tx>, request: TransferRequest)
    ensures SessionSafe(cfg, native, settled, StartSign(native, request))
  {
    hide Apply;
  }

  lemma StartExitIsSafe(cfg: Config, native: Native, settled: set<Tx>, p: ExitPolicy)
    ensures SessionSafe(cfg, native, settled, StartExit(native, p))
  {
    hide Apply, ExitPolicyMatches;
  }

  lemma StartFundIsSafe(cfg: Config, native: Native, settled: set<Tx>, p: FundPolicy)
    ensures SessionSafe(cfg, native, settled, StartFund(cfg, native, p))
  {
    hide Apply;
  }

  lemma StartNewIsSafe(cfg: Config, native: Native, settled: set<Tx>, cmd: Command, drawn: Drawn)
    requires cmd.RegisterCmd? || cmd.RequestCmd? || cmd.AcceptCmd?
    ensures SessionSafe(cfg, native, settled, StartCommand(cfg, native, cmd, drawn))
  {
    hide Apply, StartExit, DecryptTransfer;
  }

  lemma StartIsSafe(cfg: Config, native: Native, settled: set<Tx>, cmd: Command, drawn: Drawn)
    ensures SessionSafe(cfg, native, settled, StartCommand(cfg, native, cmd, drawn))
  {
    hide Apply, StartExit, StartAccept, SessionSafe;
    match cmd
    case FundCmd(p) => StartFundIsSafe(cfg, native, settled, p);
    case SignCmd(request) => StartSignIsSafe(cfg, native, settled, request);
    case ExitCmd(p) => StartExitIsSafe(cfg, native, settled, p);
    case SweepCmd(p) => StartSweepIsSafe(cfg, native, settled, p, drawn);
    case _ => StartNewIsSafe(cfg, native, settled, cmd, drawn);
  }

  lemma FundStepSafe(cfg: Config, native: Native, settled: set<Tx>, p: FundPolicy, pc: Pc, event: Event)
    ensures SessionSafe(cfg, native, settled, Or(StepFund(cfg, native, p, pc, event), Idle))
  {
    hide Apply, ExplorerFundingIntact, ValidateFinalizedFunding;
  }

  lemma SignStepSafe(cfg: Config, native: Native, settled: set<Tx>, request: TransferRequest, pc: Pc, event: Event)
    requires PcSafe(cfg, native, settled, SignCmd(request), pc)
    ensures SessionSafe(cfg, native, settled, Or(StepSign(cfg, native, request, pc, event), Idle))
  {
    hide Apply, ValidatePendingTransfer;
  }

  lemma ExitStepSafe(cfg: Config, native: Native, settled: set<Tx>, p: ExitPolicy, pc: Pc, event: Event)
    requires PcSafe(cfg, native, settled, ExitCmd(p), pc)
    ensures SessionSafe(cfg, native, settled, Or(StepExit(cfg, native, p, pc, event), Idle))
  {
    hide Apply, PrepareExit, VerifyExitFunding, ExitPolicyMatches;
  }

  /** Recording a sweep seen on chain; only one seen deep enough may be replaced. */
  lemma MarkSweepSafe(cfg: Config, native: Native, settled: set<Tx>, p: SweepPolicy, confirmations: u32)
    requires cfg.backend.Explorer? && native.sweep.Some?
    requires confirmations >= cfg.minConfirmations ==> SweepTxOf(native) in settled
    ensures SessionSafe(cfg, native, settled, MarkSweep(cfg, native, SweepCmd(p), SweepTxOf(native), confirmations))
  {
    hide Apply;
  }

  /** Preparing a sweep from outputs that no funding reserves. */
  lemma PrepareSweepSafe(cfg: Config, native: Native, settled: set<Tx>, p: SweepPolicy, listed: seq<SourceUtxo>)
    requires cfg.backend.Explorer? && SweepReplaceable(native, settled)
    ensures SessionSafe(cfg, native, settled,
                        Updating(cfg, native, SweepCmd(p), SweepPrepareOp(Available(cfg, native, listed), p),
                                 SweepReady))
  {
    hide Apply;
    AvailableIsUnreserved(cfg, native, listed);
  }

  lemma SweepStepSafe(cfg: Config, node: Node, p: SweepPolicy, pc: Pc, event: Event)
    requires PcSafe(cfg, node.durable, node.settled, SweepCmd(p), pc)
    ensures SessionSafe(cfg, node.durable, Settling(cfg, node, event),
                        Or(StepSweep(cfg, node.durable, p, pc, event), Idle))
  {
    hide Apply, ValidateSweep, Available;
    var native, settled := node.durable, Settling(cfg, node, event);
    if (pc.SweepReplace? || pc.SweepGather?) && event.Listed? {
      PrepareSweepSafe(cfg, native, settled, p, event.sources);
    } else if pc.SweepLook? || pc.SweepReady? {
      SweepSeenSafe(cfg, node, p, pc, event);
    } else if !pc.SweepReplace? && !pc.SweepGather? {
      SweepHandingSafe(cfg, native, settled, p, pc, event);
    }
  }

  lemma SweepSeenSafe(cfg: Config, node: Node, p: SweepPolicy, pc: Pc, event: Event)
    requires cfg.backend.Explorer? && (pc.SweepLook? || pc.SweepReady?)
    ensures SessionSafe(cfg, node.durable, Settling(cfg, node, event),
                        Or(StepSweep(cfg, node.durable, p, pc, event), Idle))
  {
    hide ApplyWallet, BuildSourceSweep, Apply;
    var native := node.durable;
    if event.Seen? && native.sweep.Some? && event.found == Some(SweepTxOf(native)) {
      MarkSweepSafe(cfg, native, Settling(cfg, node, event), p, if pc.SweepLook? then event.depth else 0);
    }
  }

  lemma SweepHandingSafe(cfg: Config, native: Native, settled: set<Tx>, p: SweepPolicy, pc: Pc, event: Event)
    requires cfg.backend.Explorer? && !pc.SweepReplace? && !pc.SweepGather? && !pc.SweepLook? && !pc.SweepReady?
    ensures SessionSafe(cfg, native, settled, Or(StepSweep(cfg, native, p, pc, event), Idle))
  {
    hide Apply, ValidateSweep;
  }

  lemma AvailableIsUnreserved(cfg: Config, native: Native, sources: seq<SourceUtxo>)
    ensures Outpoints(Available(cfg, native, sources)) !! Reserved(native)
  {
  }

  lemma CommandStepSafe(cfg: Config, node: Node, cmd: Command, pc: Pc, event: Event)
    requires PcSafe(cfg, node.durable, node.settled, cmd, pc)
    ensures SessionSafe(cfg, node.durable, Settling(cfg, node, event),
                        Or(StepSession(cfg, node.durable, cmd, pc, event), Idle))
  {
    hide Apply, StepSweep, StepExit, StepSign, ExplorerFundingIntact, StepFund;
    var settled := Settling(cfg, node, event);
    match cmd
    case RegisterCmd =>
    case RequestCmd(_, _, _, _) =>
    case FundCmd(p) => FundStepSafe(cfg, node.durable, settled, p, pc, event);
    case SignCmd(request) => SignStepSafe(cfg, node.durable, settled, request, pc, event);
    case AcceptCmd(_, _) =>
    case ExitCmd(p) => ExitStepSafe(cfg, node.durable, settled, p, pc, event);
    case SweepCmd(p) => SweepStepSafe(cfg, node, p, pc, event);
  }

  lemma HandedOutIsSecured(native: Native)
    requires WalletSafe(native.wallet) && FundingTransaction(native.wallet).Ok?
    ensures FundingSecured(native, FundingTransaction(native.wallet).value)
  {
    FundingTransactionIsSafe(native.wallet);
  }

  lemma HandKeepsHanded(cfg: Config, node: Node)
    requires HandedSafe(node) && node.session.Run?
             && PcSafe(cfg, node.durable, node.settled, CmdOf(node.session), PcOf(node.session))
    requires FundingTransaction(node.durable.wallet).Ok? ==>
               FundingSecured(node.durable, FundingTransaction(node.durable.wallet).value)
    requires StepHand(cfg, node).Some?
    ensures HandedSafe(Or(StepHand(cfg, node), node))
  {
    hide Updating, FundingSecured, VerifySignedRecovery;
  }

  lemma HandKeepsSession(cfg: Config, node: Node)
    requires SessionSafe(cfg, node.durable, node.settled, node.session) && StepHand(cfg, node).Some?
    ensures SessionSafe(cfg, node.durable, node.settled, Or(StepHand(cfg, node), node).session)
  {
    hide Apply, FundingTransaction;
  }

  lemma HandKeepsSafe(cfg: Config, node: Node)
    requires Safe(cfg, node) && StepHand(cfg, node).Some?
    ensures Safe(cfg, Or(StepHand(cfg, node), node))
  {
    hide Apply, OpSafe, NextSafe, HandedSafe, FundingTransaction, ValidateSweep;
    if FundingTransaction(node.durable.wallet).Ok? {
      HandedOutIsSecured(node.durable);
    }
    HandKeepsSession(cfg, node);
    HandKeepsHanded(cfg, node);
  }

  lemma SendKeepsSafe(cfg: Config, node: Node)
    requires Safe(cfg, node) && StepSend(node).Some?
    ensures Safe(cfg, Or(StepSend(node), (node, Silent)).0)
  {
    hide Apply, NativeSafe, FundingSecured;
  }

  predicate IsInput(event: Event) {
    !event.Crash? && !event.Save? && !event.Start? && !event.Send? && !event.Hand? && !event.Publish? && !event.Release?
  }

  lemma InputKeepsSafe(cfg: Config, node: Node, event: Event)
    requires Safe(cfg, node) && IsInput(event) && StepNode(cfg, node, event).Some?
    ensures Safe(cfg, Or(StepNode(cfg, node, event), (node, Silent)).0)
  {
    hide Apply, StepSession, StartCommand, NativeValid, NativeSafe;
    if node.session.Run? {
      CommandStepSafe(cfg, node, node.session.cmd, node.session.pc, event);
    }
  }

  lemma ShareKeepsSafe(cfg: Config, node: Node, event: Event)
    requires Safe(cfg, node) && StepShare(node, event).Some?
    ensures Safe(cfg, Or(StepShare(node, event), (node, Silent)).0)
  {
    hide Apply, NativeSafe, FundingSecured;
  }

  lemma StepKeepsSafe(cfg: Config, node: Node, event: Event)
    requires Safe(cfg, node)
    ensures Safe(cfg, Step(cfg, node, event))
  {
    hide Apply, StepSession, StartCommand, NativeValid, NativeSafe;
    if StepNode(cfg, node, event).Some? {
      match event
      case Crash =>
      case Save => SaveKeepsSafe(cfg, node);
      case Start(cmd, drawn) => StartIsSafe(cfg, node.durable, node.settled, cmd, drawn);
      case Send => SendKeepsSafe(cfg, node);
      case Hand => HandKeepsSafe(cfg, node);
      case Publish => ShareKeepsSafe(cfg, node, event);
      case Release => ShareKeepsSafe(cfg, node, event);
      case _ => InputKeepsSafe(cfg, node, event);
    }
  }

  lemma {:induction false} RunsAreSafe(cfg: Config, node: Node, events: seq<Event>)
    requires Safe(cfg, node)
    ensures Safe(cfg, Execute(cfg, node, events))
  {
    hide Step, Safe;
    if events == [] {
    } else {
      var before := events[..|events| - 1];
      RunsAreSafe(cfg, node, before);
      StepKeepsSafe(cfg, Execute(cfg, node, before), events[|events| - 1]);
    }
  }

  lemma OnlySavesMoveTheFile(cfg: Config, node: Node, event: Event)
    requires !event.Save?
    ensures Step(cfg, node, event).durable == node.durable
  {
    hide Apply, StepSession, StartCommand, NativeValid, FundingTransaction;
  }

  lemma StepIsLater(cfg: Config, node: Node, event: Event)
    requires Safe(cfg, node)
    ensures Later(node.durable, Step(cfg, node, event).durable)
  {
    hide Apply, StepSession, StartCommand, NativeValid, Safe, StepHand;
    if !event.Save? {
      OnlySavesMoveTheFile(cfg, node, event);
    } else if StepSave(cfg, node).Some? {
      SaveWrites(cfg, node);
    }
  }

  lemma {:induction false} RunsAreLater(cfg: Config, node: Node, events: seq<Event>, more: seq<Event>)
    requires Safe(cfg, node)
    ensures Later(Execute(cfg, node, events).durable, Execute(cfg, node, events + more).durable)
  {
    hide Step, Safe;
    if more == [] {
      assert events + more == events;
    } else {
      var most := more[..|more| - 1];
      RunsAreLater(cfg, node, events, most);
      RunsAreSafe(cfg, node, events + most);
      StepIsLater(cfg, Execute(cfg, node, events + most), more[|more| - 1]);
      assert (events + more)[..|events + more| - 1] == events + most;
      LaterTwice(Execute(cfg, node, events).durable, Execute(cfg, node, events + most).durable,
                 Execute(cfg, node, events + more).durable);
    }
  }

  lemma LaterTwice(a: Native, b: Native, c: Native)
    requires Later(a, b) && Later(b, c)
    ensures Later(a, c)
  {
  }

  lemma FreshIsSafe(cfg: Config, secret: Token)
    ensures Safe(cfg, FreshNode(secret))
  {
    hide Apply, ValidateSweep;
  }

  // ---------------------------------------------------------------------------
  // Main results, for every configuration, every environment and every run from a new wallet.

  /** Every file a command leaves behind, at any crash point, loads;
      and no save is ever refused by its own validation. */
  lemma {:induction false} ReloadNeverFails(cfg: Config, secret: Token, events: seq<Event>)
    ensures var node := Execute(cfg, FreshNode(secret), events);
            && NativeValid(cfg, node.durable)
            && (node.session.Dirty? ==>
                  Written(cfg, node.durable, node.session.cmd, node.session.vol) == Some(node.session.vol))
  {
    hide Execute, SessionSafe, NativeValid;
    FreshIsSafe(cfg, secret);
    RunsAreSafe(cfg, FreshNode(secret), events);
    var node := Execute(cfg, FreshNode(secret), events);
    if node.session.Dirty? {
      SaveWrites(cfg, node);
    }
  }

  /**
   On both backends, any funding transaction ever handed to the network is the
   saved one, and the file already holds a recovery of exactly its coin output,
   signed by both keys, and the secret the recovery pays to.
   */
  lemma {:induction false} BroadcastFundingIsSecured(cfg: Config, secret: Token, events: seq<Event>, tx: Tx)
    requires tx in Execute(cfg, FreshNode(secret), events).handedFunding
    ensures FundingSecured(Execute(cfg, FreshNode(secret), events).durable, tx)
  {
    hide Execute, SessionSafe, NativeSafe;
    FreshIsSafe(cfg, secret);
    RunsAreSafe(cfg, FreshNode(secret), events);
  }

  /** The saved funding bytes never change, the stage never falls, and once secured the recovery and its secret stay. */
  lemma {:induction false} FundingNeverRegresses(cfg: Config, secret: Token, events: seq<Event>, more: seq<Event>)
    ensures FundingKept(Execute(cfg, FreshNode(secret), events).durable.wallet,
                        Execute(cfg, FreshNode(secret), events + more).durable.wallet)
  {
    hide Execute, Safe;
    FreshIsSafe(cfg, secret);
    RunsAreLater(cfg, FreshNode(secret), events, more);
  }

  /** A wallet sends its coin at most once: the request and the envelope it releases never change. */
  lemma {:induction false} OneEnvelope(cfg: Config, secret: Token, events: seq<Event>, more: seq<Event>)
    ensures CoinKept(Execute(cfg, FreshNode(secret), events).durable.wallet,
                     Execute(cfg, FreshNode(secret), events + more).durable.wallet)
  {
    hide Execute, Safe;
    FreshIsSafe(cfg, secret);
    RunsAreLater(cfg, FreshNode(secret), events, more);
  }

  /** Every child ever handed to the network is the child of the one saved package, saved as armed and still valid. */
  lemma {:induction false} OneExitChild(cfg: Config, secret: Token, events: seq<Event>, child: Tx)
    requires child in Execute(cfg, FreshNode(secret), events).handedChildren
    ensures var native := Execute(cfg, FreshNode(secret), events).durable;
            && ExitArmed(native) && native.exit.value.package.child == child
            && native.wallet.coin.Some? && ValidatePackage(native.exit.value.package, native.wallet.coin.value).Ok?
  {
    hide Execute, SessionSafe, ValidateSweep;
    FreshIsSafe(cfg, secret);
    RunsAreSafe(cfg, FreshNode(secret), events);
  }

  /** Whenever a child or a sweep leaves the wallet, its exact bytes are durable at the armed stage. */
  lemma {:induction false} HandedWhenArmed(cfg: Config, secret: Token, events: seq<Event>)
    requires StepHand(cfg, Execute(cfg, FreshNode(secret), events)).Some?
    ensures var node := Execute(cfg, FreshNode(secret), events);
            var next := Or(StepHand(cfg, node), node);
            && (node.session.pc.ExitChildOnly? || node.session.pc.ExitSubmit? ==>
                  ExitAtSubmission(node.durable)
                  && next.handedChildren == node.handedChildren + {node.durable.exit.value.package.child})
            && (node.session.pc.SweepHand? ==>
                  SweepAtSubmission(node.durable) && next.handedSweeps == node.handedSweeps + {SweepTxOf(node.durable)})
  {
    hide Execute, Apply, NativeSafe, FundingTransaction, HandedSafe;
    FreshIsSafe(cfg, secret);
    RunsAreSafe(cfg, FreshNode(secret), events);
  }

  /** From the first exit journal on the wallet is frozen; from the first arming on the package is. */
  lemma {:induction false} ExitFreezesWallet(cfg: Config, secret: Token, events: seq<Event>, more: seq<Event>)
    requires Execute(cfg, FreshNode(secret), events).durable.exit.Some?
    ensures var was := Execute(cfg, FreshNode(secret), events).durable;
            var now := Execute(cfg, FreshNode(secret), events + more).durable;
            && was.wallet.pending.None? && now.wallet == was.wallet && now.exit.Some?
            && (ExitArmed(was) ==> ExitArmed(now) && now.exit.value.package == was.exit.value.package)
  {
    hide Execute, SessionSafe, NativeValid;
    FreshIsSafe(cfg, secret);
    RunsAreSafe(cfg, FreshNode(secret), events);
    RunsAreLater(cfg, FreshNode(secret), events, more);
  }

  /**
   The saved funding transaction and the current sweep never spend the same
   output, and every sweep ever handed out is still journaled or was seen
   with the configured confirmations.
   */
  lemma {:induction false} SweepAndFundingNeverCompete(cfg: Config, secret: Token, events: seq<Event>)
    ensures var node := Execute(cfg, FreshNode(secret), events);
            && Reserved(node.durable) !! SweepSources(node.durable)
            && forall tx :: tx in node.handedSweeps ==>
                 || tx in node.settled
                 || (node.durable.sweep.Some? && SweepTxOf(node.durable) == tx
                     && node.durable.sweep.value.stage != SweepPrepared)
  {
    hide Execute, SessionSafe, NativeValid;
    FreshIsSafe(cfg, secret);
    RunsAreSafe(cfg, FreshNode(secret), events);
  }
}
