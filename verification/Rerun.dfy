/**
 Every rerun, not just some: once an attempt is signed, a rerun of its command
 can only move towards the applied state. Module Resume shows that such a run
 exists; here is that nothing but a crash or a signer restart stops any run.
 */
module Rerun {
  import opened Wrappers
  import opened Bitcoin
  import opened Enclave
  import opened Client
  import opened Transfer
  import opened Validation
  import opened Wallet
  import opened Driver
  import opened DriverSafety
  import opened Updates
  import opened Protocol
  import opened Agreement
  import opened Growth
  import opened AgreementUpdates
  import opened AgreementSteps
  import opened JointFacts
  import opened Resume
  import opened JointTheorems
  import opened Progress

  /** How many of its own steps a rerun still takes; none once it is applied. */
  function Remaining(session: Session): nat {
    match session
    case Idle => 8
    case Dirty(_, next, _, _) => if next.SignRelease? || next.FundHand? then 1 else 3
    case Run(_, pc) =>
      if pc.SignRecheck? || pc.FinStatus? then 7
      else if pc.SignValidate? then 6
      else if pc.SignSend? || pc.FinSend? then 5
      else if pc.SignWait? || pc.FinWait? then 4
      else if pc.SignComplete? || pc.FinComplete? then 2
      else 0
  }

  /** The pending attempt is the newest signature of the coin's log. */
  predicate Committed(world: World, w: WalletState) {
    |CoinLogOf(world, w).entries| == |CoinOf(w).history| + 1
  }

  /** A status taken after the attempt was signed. */
  predicate Confirms(w: WalletState, status: CoinStatus) {
    VerifyStatus(CoinOf(w).keys, status).Ok? && AttemptCommitted(status, AttemptOf(w)) == Ok(true)
  }

  predicate RunStage(w: WalletState, cmd: Command, pc: Pc) {
    || (pc == CompletePc(cmd) && Responding(w))
    || (Preparing(w) && (pc == FirstPc(cmd) || pc == SendPc(cmd) || pc == WaitPc(cmd)))
    || (Preparing(w) && cmd.SignCmd? && pc.SignValidate? && Confirms(w, pc.status))
  }

  predicate SaveStage(world: World, w: WalletState, cmd: Command, next: Pc, op: Update, vol: Native) {
    || (next == CompletePc(cmd) && Preparing(w) && op.WalletOp? && op.update.Record?
        && vol.wallet == Recorded(w, op.update.response)
        && Entry(AttemptOf(w).request, op.update.response) in world.replies)
    || (next == AppliedPc(cmd) && Responding(w) && op.WalletOp? && Applied(w, vol.wallet))
  }

  /** Somewhere between the start of the rerun and its last save. */
  predicate Stage(world: World, w: WalletState, cmd: Command, session: Session) {
    match session
    case Idle => false
    case Run(c, pc) => c == cmd && RunStage(w, cmd, pc)
    case Dirty(c, next, op, vol) => c == cmd && SaveStage(world, w, cmd, next, op, vol)
  }

  // ---------------------------------------------------------------------------
  // One event of the rerun.

  /** What the joint invariant gives about a wallet that reruns a signed attempt. */
  ghost predicate Rerunning(cfg: Config, world: World, i: nat, node: Node, cmd: Command) {
    var w := node.durable.wallet;
    && Known(world, i, w) && Safe(cfg, node) && Fits(w) && CoinLive(world, w) && Resumes(cmd, w) && Committed(world, w)
    && Stage(world, w, cmd, node.session)
  }

  /** One step closer: still on the way, or applied. */
  predicate Closer(world: World, cmd: Command, node: Node, next: Node) {
    var w, w' := node.durable.wallet, next.durable.wallet;
    && Remaining(next.session) < Remaining(node.session)
    && (|| (next.session == Run(cmd, AppliedPc(cmd)) && Applied(w, w'))
        || (Stage(world, w', cmd, next.session) && Resumes(cmd, w') && w'.coin == w.coin
            && PurposeOf(w') == PurposeOf(w)
            && AttemptOf(w') == AttemptOf(w)))
  }

  lemma LiveStatusConfirms(world: World, i: nat, w: WalletState)
    requires Known(world, i, w) && Attempting(w) && CoinLive(world, w) && Committed(world, w)
    ensures Confirms(w, LiveStatus(world, w))
  {
    KnownCountTest(world, i, w);
    AttemptSignedOnce(world, i, w);
  }

  /** Saving a recorded response leaves the completion to do; saving the completion leaves nothing. */
  lemma SavedIsCloser(world: World, node: Node, cmd: Command, next: Node)
    requires node.session.Dirty? && Stage(world, node.durable.wallet, cmd, node.session)
             && Resumes(cmd, node.durable.wallet)
    requires next == node.(durable := node.session.vol, session := Run(cmd, node.session.next))
    ensures Closer(world, cmd, node, next)
  {
    if node.session.next == CompletePc(cmd) {
      RecordedReads(node.durable.wallet, node.session.op.update.response);
      RecordedResumes(cmd, node.durable.wallet, node.session.op.update.response);
    }
  }

  lemma RecordedResumes(cmd: Command, w: WalletState, response: SignResponse)
    requires Resumes(cmd, w)
    ensures Resumes(cmd, Recorded(w, response)) && AttemptOf(Recorded(w, response)) == AttemptOf(w)
    ensures PurposeOf(Recorded(w, response)) == PurposeOf(w)
  {
  }

  lemma SaveAdvances(cfg: Config, world: World, node: Node, cmd: Command)
    requires Safe(cfg, node) && Resumes(cmd, node.durable.wallet)
    requires node.session.Dirty? && Stage(world, node.durable.wallet, cmd, node.session)
    ensures Closer(world, cmd, node, Or(StepNode(cfg, node, Save), (node, Silent)).0)
  {
    hide StepNode, Apply, Safe;
    var s := node.session;
    Saves(cfg, node, cmd, s.next, s.op, s.vol);
    GoesOnAfterSave(cfg, s.vol, cmd, s.next);
    SavedIsCloser(world, node, cmd, node.(durable := s.vol, session := Run(cmd, s.next)));
  }

  /** The request goes out. */
  lemma SendAdvances(cfg: Config, world: World, node: Node, cmd: Command)
    requires Resumes(cmd, node.durable.wallet) && Preparing(node.durable.wallet)
             && node.session == Run(cmd, SendPc(cmd))
    ensures Closer(world, cmd, node, Or(StepNode(cfg, node, Send), (node, Silent)).0)
  {
    hide Apply, StepSession, StartCommand, NativeValid, StepHand;
    SendsRequest(node, cmd);
    assert StepNode(cfg, node, Send) == StepSend(node);
  }

  /** What the rerun waits for, given that it is about this coin. */
  predicate Suits(w: WalletState, event: Event) {
    event.GotStatus? ==> Confirms(w, event.status)
  }

  lemma CheckAdvances(cfg: Config, world: World, node: Node, cmd: Command, event: Event)
    requires Resumes(cmd, node.durable.wallet) && Preparing(node.durable.wallet) && Suits(node.durable.wallet, event)
    requires node.session == Run(cmd, FirstPc(cmd)) && event.GotStatus?
    ensures Closer(world, cmd, node, Or(StepNode(cfg, node, event), (node, Silent)).0)
  {
    hide StepNode, SaveStage;
    if cmd.SignCmd? {
      RechecksTransfer(cfg, node, cmd.request, event.status, event.drawn);
    } else {
      FindsFundingCommitted(cfg, node, cmd.fund, event.status, event.drawn);
    }
  }

  lemma ValidatedIsCloser(world: World, node: Node, request: TransferRequest, status: CoinStatus)
    requires Resumes(SignCmd(request), node.durable.wallet) && Preparing(node.durable.wallet)
    requires node.session == Run(SignCmd(request), SignValidate(status))
    ensures Closer(world, SignCmd(request), node, node.(session := Run(SignCmd(request), SignSend)))
  {
  }

  lemma ValidateAdvances(
      cfg: Config, world: World, node: Node, request: TransferRequest, status: CoinStatus, event: Event)
    requires Resumes(SignCmd(request), node.durable.wallet) && Preparing(node.durable.wallet)
             && Fits(node.durable.wallet)
    requires Confirms(node.durable.wallet, status)
    requires node.session == Run(SignCmd(request), SignValidate(status)) && event.Observed?
    ensures Closer(world, SignCmd(request), node, Or(StepNode(cfg, node, event), (node, Silent)).0)
  {
    hide StepNode, ValidatePendingTransfer, Fits, Closer;
    ConfirmedRevalidates(node.durable.wallet, status, event.funding, cfg.minConfirmations, cfg.minReaction);
    ValidatesTransfer(cfg, node, request, status, event);
    ValidatedIsCloser(world, node, request, status);
  }

  lemma ConfirmedRevalidates(
      w: WalletState, status: CoinStatus, observed: ObservedFunding, minConfirmations: u32, minReaction: u32)
    requires Attempting(w) && Preparing(w) && PurposeOf(w).Transfer? && Fits(w) && Confirms(w, status)
    ensures ValidatePendingTransfer(w, status, observed, minConfirmations, minReaction) == Ok(())
  {
  }

  /** The answer is journaled, whichever copy of it arrives. */
  lemma AnswerAdvances(cfg: Config, world: World, node: Node, cmd: Command, response: SignResponse)
    requires Resumes(cmd, node.durable.wallet) && Preparing(node.durable.wallet)
             && node.session == Run(cmd, WaitPc(cmd))
    requires Honest(world, node, GotSigned(response))
    ensures Closer(world, cmd, node, Or(StepNode(cfg, node, GotSigned(response)), (node, Silent)).0)
  {
    hide StepNode;
    TakesResponse(cfg, node, cmd, response);
  }

  lemma CompletedIsCloser(world: World, node: Node, cmd: Command, op: Update, vol: Native)
    requires Resumes(cmd, node.durable.wallet) && Responding(node.durable.wallet)
             && node.session == Run(cmd, CompletePc(cmd))
    requires op.WalletOp? && Applied(node.durable.wallet, vol.wallet)
    ensures Closer(world, cmd, node, node.(session := Dirty(cmd, AppliedPc(cmd), op, vol)))
  {
  }

  /** The living status completes the attempt. */
  lemma StatusCompletes(cfg: Config, world: World, i: nat, node: Node, cmd: Command, drawn: Drawn)
    requires Known(world, i, node.durable.wallet) && Safe(cfg, node) && Fits(node.durable.wallet)
    requires CoinLive(world, node.durable.wallet) && Resumes(cmd, node.durable.wallet)
             && Responding(node.durable.wallet)
    requires node.session == Run(cmd, CompletePc(cmd))
    ensures Closer(world, cmd, node,
                   Or(StepNode(cfg, node, GotStatus(LiveStatus(world, node.durable.wallet), drawn)), (node, Silent)).0)
  {
    hide StepNode, Apply, Known, NativeValid, Fits;
    var w, status := node.durable.wallet, LiveStatus(world, node.durable.wallet);
    var vol := KnownApplies(cfg, world, i, w, node.durable, cmd, drawn);
    Completes(cfg, node, cmd, status, drawn, vol);
    CompletedIsCloser(world, node, cmd, ApplyingOp(cmd, status, drawn), vol);
  }

  /** The one kind of event a rerun takes at each point. */
  predicate Expected(cmd: Command, session: Session, event: Event) {
    match session
    case Idle => false
    case Dirty(_, _, _, _) => event.Save?
    case Run(_, pc) =>
      if pc == FirstPc(cmd) || pc == CompletePc(cmd) then event.GotStatus?
      else if pc.SignValidate? then event.Observed?
      else if pc == SendPc(cmd) then event.Send?
      else event.GotSigned?
  }

  lemma InputIsExpected(cfg: Config, native: Native, cmd: Command, pc: Pc, event: Event)
    requires (cmd.SignCmd? || cmd.FundCmd?) && native.wallet.coin.Some?
    requires RunStage(native.wallet, cmd, pc) && StepSession(cfg, native, cmd, pc, event).Some?
    ensures Expected(cmd, Run(cmd, pc), event)
  {
    hide Updating, StepSweep, VerifyHistory, StepExit;
  }

  lemma NoOtherEffect(cfg: Config, node: Node, cmd: Command, pc: Pc, event: Event)
    requires (cmd.SignCmd? || cmd.FundCmd?) && node.session == Run(cmd, pc) && RunStage(node.durable.wallet, cmd, pc)
    requires !event.Crash? && !IsInput(event) && StepNode(cfg, node, event).Some?
    ensures Expected(cmd, node.session, event)
  {
    hide Apply, StepSession, StartCommand, Responding, Confirms, NativeValid, FundingTransaction;
  }

  lemma OnlySaves(cfg: Config, node: Node, event: Event)
    requires node.session.Dirty? && !event.Crash? && StepNode(cfg, node, event).Some?
    ensures event.Save?
  {
    hide Apply, StepSession, StartCommand, NativeValid, FundingTransaction;
  }

  lemma InputStepsSession(cfg: Config, node: Node, cmd: Command, pc: Pc, event: Event)
    requires node.session == Run(cmd, pc) && IsInput(event) && StepNode(cfg, node, event).Some?
    ensures StepSession(cfg, node.durable, cmd, pc, event).Some?
  {
    hide Apply, StepSession, StartCommand, NativeValid, StepHand;
  }

  lemma NothingElseHappens(cfg: Config, node: Node, cmd: Command, pc: Pc, event: Event)
    requires Resumes(cmd, node.durable.wallet) && node.session == Run(cmd, pc) && RunStage(node.durable.wallet, cmd, pc)
    requires !event.Crash? && StepNode(cfg, node, event).Some?
    ensures Expected(cmd, node.session, event)
  {
    hide Apply, StepSession, StepNode;
    if IsInput(event) {
      InputStepsSession(cfg, node, cmd, pc, event);
      InputIsExpected(cfg, node.durable, cmd, pc, event);
    } else {
      NoOtherEffect(cfg, node, cmd, pc, event);
    }
  }

  /** A status shown to the wallet is that of its own coin. */
  predicate AboutIt(w: WalletState, event: Event) {
    event.GotStatus? ==> event.status.coinId == CoinOf(w).keys.coinId
  }

  lemma AboutItIsLive(world: World, i: nat, node: Node, event: Event)
    requires Known(world, i, node.durable.wallet) && CoinLive(world, node.durable.wallet)
    requires Honest(world, node, event) && AboutIt(node.durable.wallet, event)
    ensures ShowsLive(world, node.durable.wallet, event)
  {
    hide Known;
  }

  predicate ShowsLive(world: World, w: WalletState, event: Event) {
    event.GotStatus? ==> event.status == LiveStatus(world, w)
  }

  lemma PreparedAdvances(cfg: Config, world: World, i: nat, node: Node, cmd: Command, pc: Pc, event: Event)
    requires Rerunning(cfg, world, i, node, cmd) && Honest(world, node, event)
             && ShowsLive(world, node.durable.wallet, event)
    requires node.session == Run(cmd, pc) && RunStage(node.durable.wallet, cmd, pc)
             && Expected(cmd, node.session, event)
    requires pc != CompletePc(cmd)
    ensures Closer(world, cmd, node, Or(StepNode(cfg, node, event), (node, Silent)).0)
  {
    hide StepNode, Known, Safe, Stage, CoinLive, Fits, Closer;
    if pc == FirstPc(cmd) {
      LiveStatusConfirms(world, i, node.durable.wallet);
      CheckAdvances(cfg, world, node, cmd, event);
    } else if pc.SignValidate? {
      ValidateAdvances(cfg, world, node, cmd.request, pc.status, event);
    } else if pc == SendPc(cmd) {
      SendAdvances(cfg, world, node, cmd);
    } else {
      AnswerAdvances(cfg, world, node, cmd, event.response);
    }
  }

  lemma InputAdvances(cfg: Config, world: World, i: nat, node: Node, cmd: Command, pc: Pc, event: Event)
    requires Rerunning(cfg, world, i, node, cmd) && Honest(world, node, event)
    requires node.session == Run(cmd, pc) && RunStage(node.durable.wallet, cmd, pc)
             && Expected(cmd, node.session, event)
    requires AboutIt(node.durable.wallet, event)
    ensures Closer(world, cmd, node, Or(StepNode(cfg, node, event), (node, Silent)).0)
  {
    hide StepNode, Closer, Known, Safe, Stage, Fits, Committed;
    AboutItIsLive(world, i, node, event);
    if pc == CompletePc(cmd) {
      StatusCompletes(cfg, world, i, node, cmd, event.drawn);
    } else {
      PreparedAdvances(cfg, world, i, node, cmd, pc, event);
    }
  }

  /** Every event but a crash, as long as the status shown is this coin's, brings a rerun one step closer. */
  lemma EventAdvances(cfg: Config, world: World, i: nat, node: Node, cmd: Command, event: Event)
    requires Rerunning(cfg, world, i, node, cmd) && Honest(world, node, event)
    requires !event.Crash? && StepNode(cfg, node, event).Some?
    requires AboutIt(node.durable.wallet, event)
    ensures Closer(world, cmd, node, Or(StepNode(cfg, node, event), (node, Silent)).0)
  {
    hide StepNode, Safe, Known, Fits;
    if node.session.Dirty? {
      OnlySaves(cfg, node, event);
      SaveAdvances(cfg, world, node, cmd);
    } else {
      NothingElseHappens(cfg, node, cmd, node.session.pc, event);
      InputAdvances(cfg, world, i, node, cmd, node.session.pc, event);
    }
  }

  // ---------------------------------------------------------------------------
  // The same over all moves of the joint system.

  /** Wallet `i` reruns a signed attempt, and the signer lives. */
  ghost predicate OnTheWay(sys: System, i: nat, w: WalletState, cmd: Command) {
    && Reachable(sys) && IsWallet(sys, i, w) && Resumes(cmd, w) && CoinLive(sys.world, w) && Committed(sys.world, w)
    && Stage(sys.world, w, cmd, NodeOf(sys, i).session)
  }

  /** The same attempt, whether its response is recorded or not. */
  predicate SameAttempt(w: WalletState, w': WalletState) {
    Attempting(w) && Attempting(w') && w'.coin == w.coin && PurposeOf(w') == PurposeOf(w)
        && AttemptOf(w') == AttemptOf(w)
  }

  predicate Arrived(sys: System, i: nat, w: WalletState, cmd: Command) {
    NodeOf(sys, i).session == Run(cmd, AppliedPc(cmd)) && Applied(w, NodeOf(sys, i).durable.wallet)
  }

  /** No signer restart; wallet `i` does not crash and is shown its own coin's status. */
  predicate Undisturbed(i: nat, w: WalletState, move: Move) {
    && !move.Restart?
    && (move.WalletMove? && move.i == i ==> !move.event.Crash? && AboutIt(w, move.event))
  }

  function LeftAt(sys: System, i: nat): nat {
    Remaining(NodeOf(sys, i).session)
  }

  /** Arrived, or still on the way. */
  ghost predicate StillGoing(sys: System, i: nat, w: WalletState, cmd: Command) {
    var w' := NodeOf(sys, i).durable.wallet;
    Arrived(sys, i, w, cmd) || (OnTheWay(sys, i, w', cmd) && SameAttempt(w, w'))
  }

  lemma RerunningNow(sys: System, i: nat, w: WalletState, cmd: Command)
    requires OnTheWay(sys, i, w, cmd)
    ensures Rerunning(CfgOf(sys, i), sys.world, i, NodeOf(sys, i), cmd)
  {
    hide Reachable, Safe, NativeSafe, Known, Fits;
    WalletKnown(sys, i, w);
    SafeWallet(sys, i, w, NodeOf(sys, i).session);
    ReachableIsSafe(sys, i);
  }

  lemma OwnMoveAdvances(sys: System, i: nat, w: WalletState, cmd: Command, event: Event)
    requires OnTheWay(sys, i, w, cmd) && Undisturbed(i, w, WalletMove(i, event)) && Enabled(sys, WalletMove(i, event))
    ensures var next := Next(sys, WalletMove(i, event));
            StillGoing(next, i, w, cmd) && LeftAt(next, i) < LeftAt(sys, i)
  {
    hide StepNode, Rerunning, Next, Stage, Remaining;
    RerunningNow(sys, i, w, cmd);
    EventAdvances(CfgOf(sys, i), sys.world, i, NodeOf(sys, i), cmd, event);
    var step := StepNode(CfgOf(sys, i), NodeOf(sys, i), event).value;
    OwnMoveLands(sys, i, w, cmd, event, step.0, step.1);
  }

  lemma OwnMoveLands(
      sys: System, i: nat, w: WalletState, cmd: Command, event: Event, node: Node, output: Output)
    requires OnTheWay(sys, i, w, cmd) && Honest(sys.world, NodeOf(sys, i), event)
    requires StepNode(CfgOf(sys, i), NodeOf(sys, i), event) == Some((node, output))
    requires Closer(sys.world, cmd, NodeOf(sys, i), node)
    ensures var next := Next(sys, WalletMove(i, event));
            StillGoing(next, i, w, cmd) && LeftAt(next, i) < LeftAt(sys, i)
  {
    hide StepNode, Next, Stage;
    WalletMoveShape(sys, i, event, node, output);
    GoesOn(sys, Next(sys, WalletMove(i, event)), i, w, cmd, node);
  }

  /** A wallet move signs nothing and loses no reply. */
  lemma WalletMoveShape(sys: System, i: nat, event: Event, node: Node, output: Output)
    requires Reachable(sys) && i < |sys.nodes| && i < |sys.cfgs| && Honest(sys.world, NodeOf(sys, i), event)
    requires StepNode(CfgOf(sys, i), NodeOf(sys, i), event) == Some((node, output))
    ensures var next := Next(sys, WalletMove(i, event));
            && Reachable(next) && IsWallet(next, i, node.durable.wallet) && NodeOf(next, i) == node
            && next.world.coins == sys.world.coins && next.world.logs == sys.world.logs
            && sys.world.replies <= next.world.replies
  {
    hide StepNode, SignWorld, Honest;
    NextIsReachable(sys, WalletMove(i, event));
  }

  lemma GoesOn(sys: System, next: System, i: nat, w: WalletState, cmd: Command, node: Node)
    requires OnTheWay(sys, i, w, cmd) && Closer(sys.world, cmd, NodeOf(sys, i), node)
    requires Reachable(next) && IsWallet(next, i, node.durable.wallet) && NodeOf(next, i) == node
    requires next.world.coins == sys.world.coins && next.world.logs == sys.world.logs
    requires sys.world.replies <= next.world.replies
    ensures StillGoing(next, i, w, cmd) && LeftAt(next, i) < LeftAt(sys, i)
  {
    hide Reachable, Stage;
    if Stage(sys.world, node.durable.wallet, cmd, node.session) {
      StageStays(sys.world, next.world, node.durable.wallet, cmd, node.session);
    }
  }

  lemma StageStays(a: World, b: World, w: WalletState, cmd: Command, session: Session)
    requires Stage(a, w, cmd, session) && a.replies <= b.replies
    ensures Stage(b, w, cmd, session)
  {
  }

  // ---------------------------------------------------------------------------
  // Moves of everybody else.

  /** What another party's move leaves alone. */
  ghost predicate LeavesAlone(a: World, b: World, w: WalletState) {
    && CoinLive(b, w) && a.replies <= b.replies && LogsGrow(a, b)
  }

  lemma SignerLeavesAlone(a: World, r: SignRequest, w: WalletState)
    requires LogsOk(a) && CoinsOk(a) && CoinLive(a, w)
    ensures LeavesAlone(a, SignWorld(a, r), w)
  {
    SignLogsGrow(a, r);
  }

  lemma RegistrarLeavesAlone(a: World, r: RegisterRequest, w: WalletState)
    requires LogsOk(a) && CoinLive(a, w)
    ensures LeavesAlone(a, RegisterWorld(a, r), w)
  {
    RegisterLogsGrow(a, r);
  }

  lemma OthersLeaveAlone(a: World, k: nat, v: WalletState, output: Output, w: WalletState)
    requires CoinLive(a, w)
    ensures LeavesAlone(a, AfterWallet(a, k, v, output), w)
  {
    SavingKeepsLogs(a, k, v, output);
  }

  /** A move of another wallet or of the signer, other than a restart. */
  predicate OfOthers(i: nat, move: Move) {
    !move.Restart? && (move.WalletMove? ==> move.i != i)
  }

  lemma OtherMoveShape(sys: System, i: nat, w: WalletState, move: Move)
    requires Reachable(sys) && IsWallet(sys, i, w) && CoinLive(sys.world, w) && OfOthers(i, move)
    ensures var next := Next(sys, move);
            && Reachable(next) && IsWallet(next, i, w) && NodeOf(next, i) == NodeOf(sys, i)
            && LeavesAlone(sys.world, next.world, w)
  {
    hide StepNode, AllSafe, NodesOk, MessagesOk, AdoptionsOk;
    NextIsReachable(sys, move);
    ReachableAgrees(sys);
    if Enabled(sys, move) {
      match move
      case WalletMove(k, event) =>
        var step := StepNode(CfgOf(sys, k), NodeOf(sys, k), event).value;
        OthersLeaveAlone(sys.world, k, step.0.durable.wallet, step.1, w);
      case DeliverSign(r) => SignerLeavesAlone(sys.world, r, w);
      case DeliverRegister(r) => RegistrarLeavesAlone(sys.world, r, w);
      case Restart =>
    }
  }

  lemma StaysCommitted(a: World, b: World, i: nat, w: WalletState)
    requires Known(a, i, w) && Known(b, i, w) && Attempting(w) && Committed(a, w) && LogsGrow(a, b)
    ensures Committed(b, w)
  {
    assert Extends(a.logs[Key(CoinOf(w))], b.logs[Key(CoinOf(w))]);
    AttemptSignedOnce(b, i, w);
  }

  lemma OtherMoveKeeps(sys: System, i: nat, w: WalletState, cmd: Command, move: Move)
    requires OnTheWay(sys, i, w, cmd) && OfOthers(i, move)
    ensures var next := Next(sys, move);
            OnTheWay(next, i, w, cmd) && NodeOf(next, i) == NodeOf(sys, i)
  {
    hide Next, Known, Reachable;
    OtherMoveShape(sys, i, w, move);
    var next := Next(sys, move);
    WalletKnown(sys, i, w);
    WalletKnown(next, i, w);
    StaysCommitted(sys.world, next.world, i, w);
    StageStays(sys.world, next.world, w, cmd, NodeOf(sys, i).session);
  }

  // ---------------------------------------------------------------------------
  // All of them together.

  function FirstMoves(moves: seq<Move>, k: int): seq<Move> {
    if 0 <= k <= |moves| then moves[..k] else moves
  }

  /** All moves but the newest. */
  function AllButNewest(moves: seq<Move>): seq<Move> {
    FirstMoves(moves, |moves| - 1)
  }

  function Newest(moves: seq<Move>): Move {
    if moves == [] then Restart else moves[|moves| - 1]
  }

  /** Whether this move is one the wallet was waiting for. */
  ghost function OwnStep(sys: System, i: nat, move: Move): int {
    if move.WalletMove? && move.i == i && Enabled(sys, move) then 1 else 0
  }

  ghost function OwnSteps(sys: System, i: nat, moves: seq<Move>): int
    decreases |moves|
  {
    if moves == [] then 0
    else OwnSteps(sys, i, AllButNewest(moves)) + OwnStep(After(sys, AllButNewest(moves)), i, Newest(moves))
  }

  predicate AllUndisturbed(i: nat, w: WalletState, moves: seq<Move>) {
    forall k :: 0 <= k < |moves| ==> Undisturbed(i, w, moves[k])
  }

  /** At some point of these moves the attempt was applied. */
  ghost predicate ArrivedWithin(sys: System, i: nat, w: WalletState, cmd: Command, moves: seq<Move>) {
    exists k :: 0 <= k <= |moves| && Arrived(After(sys, FirstMoves(moves, k)), i, w, cmd)
  }

  /** Not yet there, but every own step so far was one of those left at the start. */
  ghost predicate Underway(sys: System, i: nat, w: WalletState, cmd: Command, start: int, taken: int) {
    var w' := NodeOf(sys, i).durable.wallet;
    OnTheWay(sys, i, w', cmd) && SameAttempt(w, w') && LeftAt(sys, i) + taken <= start
  }

  lemma CarryOver(next: System, i: nat, w: WalletState, w': WalletState, cmd: Command, start: int, taken: int)
    requires SameAttempt(w, w') && StillGoing(next, i, w', cmd) && LeftAt(next, i) + taken <= start
    ensures Arrived(next, i, w, cmd) || Underway(next, i, w, cmd, start, taken)
  {
    hide OnTheWay;
  }

  /** One more move. */
  lemma GoingOn(sys: System, i: nat, w: WalletState, cmd: Command, start: int, taken: int, move: Move)
    requires Underway(sys, i, w, cmd, start, taken) && Undisturbed(i, w, move)
    ensures var next := Next(sys, move);
            Arrived(next, i, w, cmd) || Underway(next, i, w, cmd, start, taken + OwnStep(sys, i, move))
  {
    hide StepNode, OnTheWay;
    var w' := NodeOf(sys, i).durable.wallet;
    if move.WalletMove? && move.i == i {
      if Enabled(sys, move) {
        OwnMoveAdvances(sys, i, w', cmd, move.event);
        CarryOver(Next(sys, move), i, w, w', cmd, start, taken + 1);
      }
    } else {
      OtherMoveKeeps(sys, i, w', cmd, move);
    }
  }

  lemma {:induction false} Prefixed(sys: System, i: nat, w: WalletState, cmd: Command, moves: seq<Move>)
    requires moves != [] && ArrivedWithin(sys, i, w, cmd, AllButNewest(moves))
    ensures ArrivedWithin(sys, i, w, cmd, moves)
  {
    hide After;
    var before := AllButNewest(moves);
    var k :| 0 <= k <= |before| && Arrived(After(sys, FirstMoves(before, k)), i, w, cmd);
    assert FirstMoves(moves, k) == FirstMoves(before, k);
  }

  lemma {:induction false} LastMove(sys: System, i: nat, w: WalletState, cmd: Command, moves: seq<Move>)
    requires moves != []
    ensures var before, move := AllButNewest(moves), Newest(moves);
            && After(sys, moves) == Next(After(sys, before), move)
            && OwnSteps(sys, i, moves) == OwnSteps(sys, i, before) + OwnStep(After(sys, before), i, move)
    ensures Arrived(After(sys, moves), i, w, cmd) ==> ArrivedWithin(sys, i, w, cmd, moves)
  {
    hide StepNode, Next;
    assert FirstMoves(moves, |moves|) == moves;
  }

  lemma {:induction false} RerunUnderway(sys: System, i: nat, w: WalletState, cmd: Command, moves: seq<Move>)
    requires OnTheWay(sys, i, w, cmd) && AllUndisturbed(i, w, moves)
    ensures ArrivedWithin(sys, i, w, cmd, moves)
         || Underway(After(sys, moves), i, w, cmd, LeftAt(sys, i), OwnSteps(sys, i, moves))
    decreases |moves|
  {
    hide StepNode, Stage, Reachable;
    if moves == [] {
    } else {
      var before := AllButNewest(moves);
      RerunUnderway(sys, i, w, cmd, before);
      if ArrivedWithin(sys, i, w, cmd, before) {
        Prefixed(sys, i, w, cmd, moves);
      } else {
        GoingOn(After(sys, before), i, w, cmd, LeftAt(sys, i), OwnSteps(sys, i, before), Newest(moves));
        LastMove(sys, i, w, cmd, moves);
      }
    }
  }

  // ---------------------------------------------------------------------------
  // It never waits for something that cannot come.

  /** Taking an event that brings the wallet closer is a move it can make. */
  lemma CloserIsEnabled(sys: System, i: nat, w: WalletState, cmd: Command, event: Event)
    requires OnTheWay(sys, i, w, cmd) && Honest(sys.world, NodeOf(sys, i), event)
    requires Closer(sys.world, cmd, NodeOf(sys, i),
                    Or(StepNode(CfgOf(sys, i), NodeOf(sys, i), event), (NodeOf(sys, i), Silent)).0)
    ensures Enabled(sys, WalletMove(i, event))
  {
    hide StepNode, Honest, Stage, Reachable, Resumes, Applied, Remaining;
  }

  /** Any observation will do. */
  const SEEN: ObservedFunding :=
    ObservedFunding(OutPoint(ZeroTxid, 0), TxOut(0, P2tr(Point(0))), 0, false, false)

  /** The event that a rerun can take next, but for the answer it waits for. */
  function NextEvent(world: World, w: WalletState, cmd: Command, session: Session): Event {
    if session.Dirty? then Save
    else if session.Run? && (session.pc == FirstPc(cmd) || session.pc == CompletePc(cmd))
    then GotStatus(LiveStatus(world, w), Draw(world.nextToken))
    else if session.Run? && session.pc.SignValidate? then Observed(SEEN, None, false, 0)
    else Send
  }

  predicate Waits(cmd: Command, session: Session) {
    session == Run(cmd, WaitPc(cmd))
  }

  lemma NextEventIsExpected(world: World, i: nat, node: Node, cmd: Command)
    requires Known(world, i, node.durable.wallet) && CoinLive(world, node.durable.wallet)
    requires Stage(world, node.durable.wallet, cmd, node.session) && !Waits(cmd, node.session)
    requires Resumes(cmd, node.durable.wallet)
    ensures var event := NextEvent(world, node.durable.wallet, cmd, node.session);
            && Honest(world, node, event) && Expected(cmd, node.session, event) && AboutIt(node.durable.wallet, event)
            && !event.Crash?
  {
    hide Known, Resumes, SaveStage;
    StatusIsHonest(world, i, node.durable.wallet, node);
  }

  lemma ExpectedAdvances(cfg: Config, world: World, i: nat, node: Node, cmd: Command, event: Event)
    requires Rerunning(cfg, world, i, node, cmd) && Honest(world, node, event)
    requires Expected(cmd, node.session, event) && AboutIt(node.durable.wallet, event)
    ensures Closer(world, cmd, node, Or(StepNode(cfg, node, event), (node, Silent)).0)
  {
    hide StepNode, Safe, Known, Fits, Closer, RunStage, SaveStage, Honest;
    if node.session.Dirty? {
      SaveAdvances(cfg, world, node, cmd);
    } else {
      InputAdvances(cfg, world, i, node, cmd, node.session.pc, event);
    }
  }

  lemma EventTakes(sys: System, i: nat, w: WalletState, cmd: Command, event: Event)
    requires OnTheWay(sys, i, w, cmd) && Honest(sys.world, NodeOf(sys, i), event)
    requires Expected(cmd, NodeOf(sys, i).session, event) && AboutIt(w, event)
    ensures Enabled(sys, WalletMove(i, event))
  {
    hide StepNode, Closer, Honest, Reachable, Stage, Expected, Rerunning;
    RerunningNow(sys, i, w, cmd);
    ExpectedAdvances(CfgOf(sys, i), sys.world, i, NodeOf(sys, i), cmd, event);
    CloserIsEnabled(sys, i, w, cmd, event);
  }

  /** The request of a signed attempt can be delivered again, and then the answer is there. */
  lemma AnswerComes(sys: System, i: nat, w: WalletState, cmd: Command) returns (response: SignResponse)
    requires OnTheWay(sys, i, w, cmd) && Waits(cmd, NodeOf(sys, i).session)
    ensures var deliver := DeliverSign(AttemptOf(w).request);
            && Enabled(sys, deliver) && OnTheWay(Next(sys, deliver), i, w, cmd)
            && NodeOf(Next(sys, deliver), i) == NodeOf(sys, i)
            && Honest(Next(sys, deliver).world, NodeOf(sys, i), GotSigned(response))
  {
    hide Next, Known, Reachable, Stage, StepNode;
    WalletKnown(sys, i, w);
    SignedIsSent(sys.world, i, w);
    OtherMoveKeeps(sys, i, w, cmd, DeliverSign(AttemptOf(w).request));
    response := AnswerMove(sys, i, w, cmd);
    PendingIsAsked(w);
  }

  lemma PendingIsAsked(w: WalletState)
    requires Attempting(w)
    ensures PendingSignRequest(w) == Ok(AttemptOf(w).request)
  {
  }

  lemma SignedIsSent(world: World, i: nat, w: WalletState)
    requires Known(world, i, w) && Attempting(w) && Committed(world, w)
    ensures AttemptOf(w).request in world.sent
  {
    hide CanonicalRecovery;
  }

  /**
   A rerun that is under way is never stuck: it can take a step of its own at
   once, or after the signer answered its request once more.
   */
  lemma {:induction false} NeverStuck(sys: System, i: nat, w: WalletState, cmd: Command) returns (moves: seq<Move>)
    requires OnTheWay(sys, i, w, cmd)
    ensures |moves| <= 2 && AllUndisturbed(i, w, moves) && OwnSteps(sys, i, moves) == 1
  {
    hide Next, Enabled, OnTheWay, Honest;
    var s := NodeOf(sys, i).session;
    if Waits(cmd, s) {
      var response := AnswerComes(sys, i, w, cmd);
      var deliver := DeliverSign(AttemptOf(w).request);
      EventTakes(Next(sys, deliver), i, w, cmd, GotSigned(response));
      moves := [deliver, WalletMove(i, GotSigned(response))];
      TwoMoves(sys, i, deliver, GotSigned(response));
    } else {
      var event := NextEvent(sys.world, w, cmd, s);
      NextEventTakes(sys, i, w, cmd);
      moves := [WalletMove(i, event)];
      OneMove(sys, i, event);
    }
  }

  lemma NextEventTakes(sys: System, i: nat, w: WalletState, cmd: Command)
    requires OnTheWay(sys, i, w, cmd) && !Waits(cmd, NodeOf(sys, i).session)
    ensures var event := NextEvent(sys.world, w, cmd, NodeOf(sys, i).session);
            Enabled(sys, WalletMove(i, event)) && !event.Crash? && AboutIt(w, event)
  {
    hide Next, Enabled, Honest, Reachable, Known, Stage;
    WalletKnown(sys, i, w);
    NextEventIsExpected(sys.world, i, NodeOf(sys, i), cmd);
    EventTakes(sys, i, w, cmd, NextEvent(sys.world, w, cmd, NodeOf(sys, i).session));
  }

  lemma {:induction false} OneMove(sys: System, i: nat, event: Event)
    requires Enabled(sys, WalletMove(i, event))
    ensures OwnSteps(sys, i, [WalletMove(i, event)]) == 1
  {
    hide Next, Enabled;
    assert [WalletMove(i, event)][..0] == [];
    assert After(sys, []) == sys && OwnSteps(sys, i, []) == 0;
  }

  lemma {:induction false} TwoMoves(sys: System, i: nat, other: Move, event: Event)
    requires !other.WalletMove? && Enabled(Next(sys, other), WalletMove(i, event))
    ensures OwnSteps(sys, i, [other, WalletMove(i, event)]) == 1
  {
    hide Next, Enabled;
    assert [other, WalletMove(i, event)][..1] == [other];
    assert [other][..0] == [];
    assert After(sys, []) == sys && OwnSteps(sys, i, []) == 0;
    assert After(sys, [other]) == Next(sys, other) && OwnSteps(sys, i, [other]) == 0;
  }

  /** Starting the command again puts it under way. */
  lemma RerunStarts(sys: System, i: nat, w: WalletState, cmd: Command) returns (moves: seq<Move>)
    requires Reachable(sys) && At(sys, i, w, Idle) && Resumes(cmd, w) && CoinLive(sys.world, w)
    requires Responding(w) || Committed(sys.world, w)
    ensures OnTheWay(After(sys, moves), i, w, cmd)
  {
    hide Next, SaveStage, Reachable;
    moves := RestartCommand(sys, i, w, cmd);
    if Responding(w) {
      RespondedIsNewest(After(sys, moves), i, w, cmd);
    }
  }

  /**
   Every rerun arrives: from a signed attempt whose rerun is under way, over
   any moves of anybody, as long as the signer does not restart, the wallet
   does not crash and is shown its own coin's status, each event the wallet
   takes brings it closer, nothing throws it back, and after at most seven of
   its own steps the attempt has been applied.
   */
  lemma {:induction false} EveryRerunArrives(sys: System, i: nat, w: WalletState, cmd: Command, moves: seq<Move>)
    requires OnTheWay(sys, i, w, cmd) && AllUndisturbed(i, w, moves)
    ensures ArrivedWithin(sys, i, w, cmd, moves) || OwnSteps(sys, i, moves) < LeftAt(sys, i) <= 7
  {
    hide StepNode, Next, Stage, Reachable, Remaining;
    RerunUnderway(sys, i, w, cmd, moves);
    StageIsNear(sys.world, w, cmd, NodeOf(sys, i).session);
    var last := After(sys, moves);
    if OnTheWay(last, i, NodeOf(last, i).durable.wallet, cmd) {
      StageIsNear(last.world, NodeOf(last, i).durable.wallet, cmd, NodeOf(last, i).session);
    }
  }

  lemma StageIsNear(world: World, w: WalletState, cmd: Command, session: Session)
    requires Stage(world, w, cmd, session) && Resumes(cmd, w)
    ensures 1 <= Remaining(session) <= 7
  {
  }
}
