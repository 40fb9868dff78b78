/** The joint agreement holds in every reachable state. */
module AgreementSteps {
  import opened Wrappers
  import opened Bitcoin
  import opened Enclave
  import opened Client
  import opened Transfer
  import opened Validation
  import opened Funding
  import opened Wallet
  import opened Exit
  import opened Driver
  import opened DriverSafety
  import opened Updates
  import opened Ledger
  import opened Protocol
  import opened Agreement
  import opened Growth
  import opened AgreementSigner
  import opened AgreementUpdates
  import opened AgreementWallet

  /** The four values drawn in this step belong to wallet `i` and nobody took them up as a coin ID. */
  ghost predicate DrawnBy(b: World, i: nat, drawn: Drawn) {
    && Owns(b.owner, drawn.a, i) && Owns(b.owner, drawn.b, i) && Owns(b.owner, drawn.c, i) && Owns(b.owner, drawn.d, i)
    && drawn.c !in b.adopted
  }

  lemma DrawsAreFresh(a: World, i: nat, w: WalletState)
    requires DrawsOk(a)
    ensures var b := AfterWallet(a, i, w, Silent);
            Saved(a, b, w) && DrawsOk(b) && b.owner == Owned(a.owner, a.nextToken, i)
  {
  }

  lemma DrawnIsOwn(a: World, i: nat, w: WalletState)
    requires DrawsOk(a) && AdoptionsOk(a) && WalletOk(a, i, w)
    ensures DrawnBy(AfterWallet(a, i, w, Silent), i, Draw(a.nextToken))
  {
    hide PendingOk;
    AdoptedIsDrawn(a, a.nextToken + 2);
  }

  lemma AdoptedIsDrawn(a: World, id: Token)
    requires DrawsOk(a) && AdoptionsOk(a)
    ensures id in a.adopted ==> id < a.nextToken
  {
    assert id in a.adopted ==> AdoptedOk(a, id);
  }

  lemma LiveStatusOk(a: World, status: CoinStatus)
    requires CoinsOk(a) && StatusOf(a.coins, status.coinId) == Ok(status)
    ensures StatusOk(a, status)
  {
    assert LiveOk(a, status.coinId);
  }

  // ---------------------------------------------------------------------------
  // Sessions.

  lemma AfterSaveSessionOk(cfg: Config, b: World, i: nat, node: Node, cmd: Command, next: Pc)
    requires CmdOk(b, cmd) && PcOk(b, next)
    ensures SessionOk(b, i, node.(session := AfterSave(cfg, node.durable, cmd, next)))
  {
    hide Apply, StatusOk;
  }

  /** What the event of a running command brings in. */
  ghost predicate EventOk(b: World, i: nat, w: WalletState, event: Event) {
    match event
    case GotStatus(status, drawn) => StatusOk(b, status) && DrawnBy(b, i, drawn)
    case GotRegistered(status) => StatusOk(b, status)
    case GotSigned(response) => PendingSignRequest(w).Ok? && Entry(PendingSignRequest(w).value, response) in b.replies
    case Listed(_, _, drawn) => DrawnBy(b, i, drawn)
    case _ => true
  }

  lemma FundBeginSessionOk(cfg: Config, b: World, i: nat, node: Node, p: FundPolicy, pc: Pc, event: Event)
    requires node.durable.wallet.coin.Some? && PcOk(b, pc) && EventOk(b, i, node.durable.wallet, event)
    requires pc.FundStatus? || pc.FundSource? || pc.CoreStatus?
    requires StepFund(cfg, node.durable, p, pc, event).Some?
    ensures SessionOk(b, i, node.(session := Or(StepFund(cfg, node.durable, p, pc, event), Idle)))
  {
    hide Apply;
  }

  lemma FundFinishSessionOk(cfg: Config, b: World, i: nat, node: Node, p: FundPolicy, pc: Pc, event: Event)
    requires node.durable.wallet.coin.Some? && EventOk(b, i, node.durable.wallet, event)
    requires !pc.FundStatus? && !pc.FundSource? && !pc.CoreStatus?
    requires StepFund(cfg, node.durable, p, pc, event).Some?
    ensures SessionOk(b, i, node.(session := Or(StepFund(cfg, node.durable, p, pc, event), Idle)))
  {
    hide Apply, ExplorerFundingIntact, ValidateFinalizedFunding, BestSource, StatusOk;
  }

  lemma FundSessionOk(cfg: Config, b: World, i: nat, node: Node, p: FundPolicy, pc: Pc, event: Event)
    requires node.durable.wallet.coin.Some? && PcOk(b, pc) && EventOk(b, i, node.durable.wallet, event)
    requires StepFund(cfg, node.durable, p, pc, event).Some?
    ensures SessionOk(b, i, node.(session := Or(StepFund(cfg, node.durable, p, pc, event), Idle)))
  {
    hide *;
    if pc.FundStatus? || pc.FundSource? || pc.CoreStatus? {
      FundBeginSessionOk(cfg, b, i, node, p, pc, event);
    } else {
      FundFinishSessionOk(cfg, b, i, node, p, pc, event);
    }
  }

  lemma SignSessionOk(cfg: Config, b: World, i: nat, node: Node, request: TransferRequest, pc: Pc, event: Event)
    requires CmdOk(b, SignCmd(request)) && PcOk(b, pc) && EventOk(b, i, node.durable.wallet, event)
    requires StepSign(cfg, node.durable, request, pc, event).Some?
    ensures SessionOk(b, i, node.(session := Or(StepSign(cfg, node.durable, request, pc, event), Idle)))
  {
    hide Apply, ValidatePendingTransfer, StatusOk;
  }

  lemma AcceptSessionOk(
      cfg: Config, b: World, i: nat, node: Node, request: TransferRequest, envelope: TransferEnvelope, pc: Pc,
      event: Event)
    requires CmdOk(b, AcceptCmd(request, envelope)) && PcOk(b, pc)
    requires StepAccept(cfg, node.durable, request, envelope, pc, event).Some?
    ensures SessionOk(b, i, node.(session := Or(StepAccept(cfg, node.durable, request, envelope, pc, event), Idle)))
  {
    hide Apply;
  }

  lemma ExitSessionOk(cfg: Config, b: World, i: nat, node: Node, p: ExitPolicy, pc: Pc, event: Event)
    requires node.durable.wallet.coin.Some?
    requires StepExit(cfg, node.durable, p, pc, event).Some?
    ensures SessionOk(b, i, node.(session := Or(StepExit(cfg, node.durable, p, pc, event), Idle)))
  {
    hide Apply, ExitPolicyMatches, VerifyExitFunding;
  }

  predicate IsUpdate(session: Session, cmd: Command, op: Update, next: Pc) {
    session.Dirty? && session.cmd == cmd && session.op == op && session.next == next
  }

  lemma UpdateSessionOk(b: World, i: nat, node: Node, session: Session, cmd: Command, op: Update, next: Pc)
    requires !op.WalletOp? && CmdOk(b, cmd) && PcOk(b, next)
    requires session.Idle? || IsUpdate(session, cmd, op, next)
    ensures SessionOk(b, i, node.(session := session))
  {
  }

  /** Updates of the exit and sweep journals bring nothing from other parties. */
  lemma JournalUpdateOk(cfg: Config, b: World, i: nat, node: Node, cmd: Command, op: Update, next: Pc)
    requires !op.WalletOp? && CmdOk(b, cmd) && PcOk(b, next)
    ensures SessionOk(b, i, node.(session := Updating(cfg, node.durable, cmd, op, next)))
  {
    hide Apply;
    UpdateSessionOk(b, i, node, Updating(cfg, node.durable, cmd, op, next), cmd, op, next);
  }

  lemma MarkSweepSessionOk(cfg: Config, b: World, i: nat, node: Node, p: SweepPolicy, tx: Tx, confirmations: u32)
    ensures SessionOk(b, i, node.(session := MarkSweep(cfg, node.durable, SweepCmd(p), tx, confirmations)))
  {
    hide Updating;
    JournalUpdateOk(cfg, b, i, node, SweepCmd(p), SweepArmOp, SweepMark(tx, confirmations));
    JournalUpdateOk(cfg, b, i, node, SweepCmd(p), SweepObserveOp(tx), SweepSettled(confirmations));
  }

  lemma SweepSessionOk(cfg: Config, b: World, i: nat, node: Node, p: SweepPolicy, pc: Pc, event: Event)
    requires StepSweep(cfg, node.durable, p, pc, event).Some?
    ensures SessionOk(b, i, node.(session := Or(StepSweep(cfg, node.durable, p, pc, event), Idle)))
  {
    hide Updating, PaySweep, SortSources;
    var native := node.durable;
    JournalUpdateOk(cfg, b, i, node, SweepCmd(p), SweepArmOp, SweepHand);
    if event.Listed? {
      JournalUpdateOk(cfg, b, i, node, SweepCmd(p), SweepPrepareOp(Available(cfg, native, event.sources), p),
                      SweepReady);
    } else if event.Seen? {
      if event.found.Some? {
        JournalUpdateOk(cfg, b, i, node, SweepCmd(p), SweepObserveOp(event.found.value), Done);
      }
      if native.sweep.Some? {
        MarkSweepSessionOk(cfg, b, i, node, p, SweepTxOf(native), if pc.SweepLook? then event.depth else 0);
      }
    }
  }

  lemma CommandSessionOk(cfg: Config, b: World, i: nat, node: Node, cmd: Command, pc: Pc, event: Event)
    requires CmdOk(b, cmd) && PcOk(b, pc) && EventOk(b, i, node.durable.wallet, event)
    requires StepSession(cfg, node.durable, cmd, pc, event).Some?
    ensures SessionOk(b, i, node.(session := Or(StepSession(cfg, node.durable, cmd, pc, event), Idle)))
  {
    hide Apply, StepSweep, StepFund, StepExit, StepSign;
    match cmd
    case RegisterCmd =>
    case RequestCmd(_, _, _, _) =>
    case FundCmd(p) => if node.durable.wallet.coin.Some? { FundSessionOk(cfg, b, i, node, p, pc, event); }
    case SignCmd(request) => SignSessionOk(cfg, b, i, node, request, pc, event);
    case AcceptCmd(request, envelope) => AcceptSessionOk(cfg, b, i, node, request, envelope, pc, event);
    case ExitCmd(p) => if node.durable.wallet.coin.Some? { ExitSessionOk(cfg, b, i, node, p, pc, event); }
    case SweepCmd(p) => SweepSessionOk(cfg, b, i, node, p, pc, event);
  }

  // ---------------------------------------------------------------------------
  // Saves.

  lemma SaveAgrees(sys: System, i: nat)
    requires Agrees(sys) && AllSafe(sys) && i < |sys.nodes| && StepSave(CfgOf(sys, i), NodeOf(sys, i)).Some?
    ensures var node' := Or(StepSave(CfgOf(sys, i), NodeOf(sys, i)), NodeOf(sys, i));
            Agrees(System(sys.cfgs, Moved(sys.nodes, i, node'),
                          AfterWallet(sys.world, i, node'.durable.wallet, Silent)))
  {
    hide Apply, NativeValid, WalletsOk, MessagesOk, WorldOk;
    var cfg, node := CfgOf(sys, i), NodeOf(sys, i);
    var s := node.session;
    assert Safe(cfg, node);
    SaveWrites(cfg, node);
    assert SessionOk(sys.world, i, node);
    SavedNodeAgrees(sys, i, s.cmd, s.next, s.op, s.vol);
  }

  lemma SavedNodeAgrees(sys: System, i: nat, cmd: Command, next: Pc, op: Update, vol: Native)
    requires Agrees(sys) && i < |sys.nodes| && i < |sys.cfgs| && WalletSafe(NodeOf(sys, i).durable.wallet)
    requires CmdOk(sys.world, cmd) && PcOk(sys.world, next) && OpOk(sys.world, i, NodeOf(sys, i).durable.wallet, op)
    requires Apply(CfgOf(sys, i), NodeOf(sys, i).durable, op) == Ok(vol)
    ensures var node' := NodeOf(sys, i).(durable := vol, session := AfterSave(CfgOf(sys, i), vol, cmd, next));
            Agrees(System(sys.cfgs, Moved(sys.nodes, i, node'), AfterWallet(sys.world, i, vol.wallet, Silent)))
  {
    hide Apply, WalletOk, MessagesOk, AdoptionsOk;
    var a, node := sys.world, NodeOf(sys, i);
    var b := AfterWallet(a, i, vol.wallet, Silent);
    var node' := node.(durable := vol, session := AfterSave(CfgOf(sys, i), vol, cmd, next));
    DrawsAreFresh(a, i, vol.wallet);
    AppliedIsGood(sys, i, op, vol, b);
    CmdPcGrows(a, b, cmd, next);
    AfterSaveSessionOk(CfgOf(sys, i), b, i, node.(durable := vol), cmd, next);
    SaveKeepsAgreement(sys, b, i, node');
  }

  lemma AppliedIsGood(sys: System, i: nat, op: Update, vol: Native, b: World)
    requires Agrees(sys) && i < |sys.nodes| && i < |sys.cfgs| && WalletSafe(NodeOf(sys, i).durable.wallet)
    requires OpOk(sys.world, i, NodeOf(sys, i).durable.wallet, op)
    requires Apply(CfgOf(sys, i), NodeOf(sys, i).durable, op) == Ok(vol) && Saved(sys.world, b, vol.wallet)
    ensures GoodUpdate(sys, b, i, vol.wallet)
  {
    hide ApplyWallet, WalletOk, WorldOk, MessagesOk, GoodUpdate, BuildSourceSweep;
    var native := NodeOf(sys, i).durable;
    if op.WalletOp? {
      UpdateIsGood(sys, CfgOf(sys, i), native.fundingSecret, b, i, op.update, vol.wallet);
    } else {
      OnlyWalletOpsMoveWallets(CfgOf(sys, i), native, op);
      UnchangedIsGood(sys, b, i);
    }
  }

  lemma OnlyWalletOpsMoveWallets(cfg: Config, native: Native, op: Update)
    requires !op.WalletOp? && Apply(cfg, native, op).Ok?
    ensures OkOr(Apply(cfg, native, op), native).wallet == native.wallet
  {
    hide ApplyWallet, BuildSourceSweep;
  }

  // ---------------------------------------------------------------------------
  // Everything else a wallet does.

  /** An event that saves nothing only changes its session and draws values. */
  lemma SilentAgrees(sys: System, i: nat, node': Node)
    requires Agrees(sys) && i < |sys.nodes| && node'.durable == NodeOf(sys, i).durable
    requires SessionOk(AfterWallet(sys.world, i, node'.durable.wallet, Silent), i, node')
    ensures Agrees(System(sys.cfgs, Moved(sys.nodes, i, node'),
                          AfterWallet(sys.world, i, node'.durable.wallet, Silent)))
  {
    hide WalletOk, MessagesOk, AdoptionsOk, SessionOk;
    var b := AfterWallet(sys.world, i, node'.durable.wallet, Silent);
    DrawsAreFresh(sys.world, i, node'.durable.wallet);
    UnchangedIsGood(sys, b, i);
    SaveKeepsAgreement(sys, b, i, node');
  }

  /** What leaves a wallet is what it journaled. */
  ghost predicate OutputOk(w: WalletState, output: Output) {
    match output
    case Silent => true
    case SentRegister(_) => true
    case SentSign(r) => PendingIs(w, r)
    case Published(r) => w.incoming.Some? && IncomingOf(w).request == r
    case Released(r, envelope) => Sender(w, envelope)
  }

  lemma EmitGrows(a: World, i: nat, output: Output)
    ensures Grows(a, Emit(a, i, output))
  {
  }

  lemma EmitKeepsWorld(a: World, i: nat, output: Output)
    requires WorldOk(a)
    ensures WorldOk(Emit(a, i, output))
  {
    var b := Emit(a, i, output);
    EmitGrows(a, i, output);
    LogsStay(a, b);
    MetasStay(a, b);
    AdoptionsStay(a, b);
    CoinsStay(a, b);
  }

  lemma EmitKeepsMessages(a: World, nodes: seq<Node>, i: nat, output: Output)
    requires MessagesOk(a, nodes) && AdoptionsOk(a) && i < |nodes|
    requires WalletOk(a, i, nodes[i].durable.wallet) && OutputOk(nodes[i].durable.wallet, output)
    ensures MessagesOk(Emit(a, i, output), nodes)
  {
    hide Gone;
    EmitGrows(a, i, output);
    EmittedMessages(a, Emit(a, i, output), nodes);
  }

  lemma EmitKeepsNodes(sys: System, i: nat, output: Output)
    requires NodesOk(sys)
    ensures NodesOk(sys.(world := Emit(sys.world, i, output)))
  {
    hide HasCoin, NodesOk;
    EmitGrows(sys.world, i, output);
    WalletsStay(sys, Emit(sys.world, i, output));
  }

  lemma EmitAgrees(sys: System, i: nat, output: Output)
    requires Agrees(sys) && i < |sys.nodes| && OutputOk(NodeOf(sys, i).durable.wallet, output)
    ensures Agrees(sys.(world := Emit(sys.world, i, output)))
  {
    hide WalletOk, MessagesOk, AdoptionsOk, SessionsOk, LogsOk;
    assert WalletOk(sys.world, i, NodeOf(sys, i).durable.wallet);
    EmitKeepsNodes(sys, i, output);
    EmitKeepsWorld(sys.world, i, output);
    EmitKeepsMessages(sys.world, sys.nodes, i, output);
  }

  lemma EmittedMessages(a: World, b: World, nodes: seq<Node>)
    requires MessagesOk(a, nodes) && AdoptionsOk(a) && Grows(a, b)
    requires b.coins == a.coins && b.logs == a.logs && b.adopted == a.adopted && b.replies == a.replies
             && b.regReplies == a.regReplies
    requires forall r :: r in b.sent ==> r in a.sent || SentOk(b, nodes, r)
    requires forall r :: r in b.requests ==> r in a.requests || RequestOk(b, nodes, r)
    requires forall package :: package in b.packages ==> package in a.packages || PackageOk(nodes, package)
    ensures MessagesOk(b, nodes)
  {
    SentStay(a, b, nodes);
    RequestsStay(a, b, nodes);
    forall package | package in b.packages ensures PackageOk(nodes, package) {
      if package in a.packages { assert PackageOk(nodes, package); }
    }
    RepliesStay(a, b);
    StatusesStay(a, b);
    HoldersStay(a, b, nodes);
  }

  /** Any event but a save: the file stays, the session stays explained, what leaves was journaled. */
  ghost predicate Quiet(b: World, i: nat, node: Node, next: (Node, Output)) {
    next.0.durable == node.durable && SessionOk(b, i, next.0) && OutputOk(node.durable.wallet, next.1)
  }

  lemma StartIsQuiet(cfg: Config, a: World, b: World, i: nat, node: Node, cmd: Command, drawn: Drawn)
    requires Honest(a, node, Start(cmd, drawn)) && Grows(a, b) && DrawnBy(b, i, drawn)
    requires StepNode(cfg, node, Start(cmd, drawn)).Some? && SessionOk(b, i, node)
    ensures Quiet(b, i, node, Or(StepNode(cfg, node, Start(cmd, drawn)), (node, Silent)))
  {
    hide Apply, StepSession, NativeValid;
    if cmd.AcceptCmd? { DeliveredGrows(a, b, cmd.envelope); }
  }

  lemma SendIsQuiet(b: World, i: nat, node: Node)
    requires SessionOk(b, i, node) && StepSend(node).Some?
    ensures Quiet(b, i, node, Or(StepSend(node), (node, Silent)))
  {
  }

  lemma ShareIsQuiet(b: World, i: nat, node: Node, event: Event)
    requires StepShare(node, event).Some?
    ensures Quiet(b, i, node, Or(StepShare(node, event), (node, Silent)))
  {
  }

  lemma HandIsQuiet(cfg: Config, b: World, i: nat, node: Node)
    requires SessionOk(b, i, node) && StepNode(cfg, node, Hand).Some?
    ensures Quiet(b, i, node, Or(StepNode(cfg, node, Hand), (node, Silent)))
  {
    hide ApplyWallet, StepSession, BuildSourceSweep, VerifyRecovery, FundingTransaction, StartCommand, Apply;
  }

  lemma InputIsQuiet(cfg: Config, b: World, i: nat, node: Node, event: Event)
    requires IsInput(event) && SessionOk(b, i, node) && EventOk(b, i, node.durable.wallet, event)
    requires StepNode(cfg, node, event).Some?
    ensures Quiet(b, i, node, Or(StepNode(cfg, node, event), (node, Silent)))
  {
    hide Apply, StepSession, StartCommand, NativeValid, StepHand;
    CommandSessionOk(cfg, b, i, node.(settled := Settling(cfg, node, event)), node.session.cmd, node.session.pc, event);
  }

  lemma HonestInputOk(a: World, b: World, i: nat, node: Node, event: Event)
    requires Honest(a, node, event) && Grows(a, b) && IsInput(event)
    requires CoinsOk(a) && AllStatuses(a) && DrawnBy(b, i, Draw(a.nextToken))
    ensures EventOk(b, i, node.durable.wallet, event)
  {
    match event
    case GotStatus(status, _) =>
      LiveStatusOk(a, status);
      StatusGrows(a, b, status);
    case GotRegistered(status) =>
      assert StatusOk(a, status);
      StatusGrows(a, b, status);
    case _ =>
  }

  lemma EventIsQuiet(sys: System, i: nat, event: Event, b: World)
    requires Agrees(sys) && i < |sys.nodes| && i < |sys.cfgs| && !event.Save?
    requires Honest(sys.world, NodeOf(sys, i), event) && StepNode(CfgOf(sys, i), NodeOf(sys, i), event).Some?
    requires b == AfterWallet(sys.world, i, NodeOf(sys, i).durable.wallet, Silent)
    ensures Quiet(b, i, NodeOf(sys, i), Or(StepNode(CfgOf(sys, i), NodeOf(sys, i), event), (NodeOf(sys, i), Silent)))
  {
    hide StepNode, WalletOk, AdoptionsOk, SessionOk, AllHolders;
    assert WalletOk(sys.world, i, NodeOf(sys, i).durable.wallet);
    DrawsAreFresh(sys.world, i, NodeOf(sys, i).durable.wallet);
    DrawnIsOwn(sys.world, i, NodeOf(sys, i).durable.wallet);
    NodeSessionGrows(sys, b, i);
    HonestEventIsQuiet(CfgOf(sys, i), sys.world, b, i, NodeOf(sys, i), event);
  }

  lemma HonestEventIsQuiet(cfg: Config, a: World, b: World, i: nat, node: Node, event: Event)
    requires CoinsOk(a) && AllStatuses(a) && Grows(a, b) && DrawnBy(b, i, Draw(a.nextToken)) && SessionOk(b, i, node)
    requires !event.Save? && Honest(a, node, event) && StepNode(cfg, node, event).Some?
    ensures Quiet(b, i, node, Or(StepNode(cfg, node, event), (node, Silent)))
  {
    hide Apply, StepSession, StartCommand, NativeValid, StepHand;
    if event.Start? {
      StartIsQuiet(cfg, a, b, i, node, event.cmd, event.drawn);
    } else if event.Send? {
      SendIsQuiet(b, i, node);
    } else if event.Hand? {
      HandIsQuiet(cfg, b, i, node);
    } else if event.Publish? || event.Release? {
      ShareIsQuiet(b, i, node, event);
    } else if IsInput(event) {
      HonestInputOk(a, b, i, node, event);
      InputIsQuiet(cfg, b, i, node, event);
    }
  }

  lemma NodeSessionGrows(sys: System, b: World, i: nat)
    requires NodesOk(sys) && i < |sys.nodes| && Saved(sys.world, b, NodeOf(sys, i).durable.wallet)
    ensures SessionOk(b, i, NodeOf(sys, i))
  {
    hide PendingOk;
    assert WalletOk(sys.world, i, NodeOf(sys, i).durable.wallet) && SessionOk(sys.world, i, NodeOf(sys, i));
    SessionGrows(sys.world, b, i, NodeOf(sys, i));
  }

  lemma QuietAgrees(sys: System, i: nat, event: Event)
    requires Agrees(sys) && i < |sys.nodes| && i < |sys.cfgs| && !event.Save?
    requires Honest(sys.world, NodeOf(sys, i), event) && StepNode(CfgOf(sys, i), NodeOf(sys, i), event).Some?
    ensures var next := Or(StepNode(CfgOf(sys, i), NodeOf(sys, i), event), (NodeOf(sys, i), Silent));
            Agrees(System(sys.cfgs, Moved(sys.nodes, i, next.0),
                          AfterWallet(sys.world, i, next.0.durable.wallet, next.1)))
  {
    hide *;
    var next := Or(StepNode(CfgOf(sys, i), NodeOf(sys, i), event), (NodeOf(sys, i), Silent));
    EventIsQuiet(sys, i, event, AfterWallet(sys.world, i, NodeOf(sys, i).durable.wallet, Silent));
    QuietNodeAgrees(sys, i, next);
  }

  lemma SilentThenEmit(a: World, i: nat, w: WalletState, output: Output)
    ensures Emit(AfterWallet(a, i, w, Silent), i, output) == AfterWallet(a, i, w, output)
  {
  }

  lemma QuietNodeAgrees(sys: System, i: nat, next: (Node, Output))
    requires Agrees(sys) && i < |sys.nodes|
    requires Quiet(AfterWallet(sys.world, i, NodeOf(sys, i).durable.wallet, Silent), i, NodeOf(sys, i), next)
    ensures Agrees(System(sys.cfgs, Moved(sys.nodes, i, next.0),
                          AfterWallet(sys.world, i, next.0.durable.wallet, next.1)))
  {
    hide Agrees, AfterWallet, SessionOk, OutputOk, Emit;
    SilentAgrees(sys, i, next.0);
    var silent
        := System(sys.cfgs, Moved(sys.nodes, i, next.0), AfterWallet(sys.world, i, next.0.durable.wallet, Silent));
    EmitAgrees(silent, i, next.1);
    SilentThenEmit(sys.world, i, next.0.durable.wallet, next.1);
  }

  // ---------------------------------------------------------------------------
  // Every move, every run.

  lemma MoveAgrees(sys: System, i: nat, event: Event)
    requires Agrees(sys) && AllSafe(sys) && Enabled(sys, WalletMove(i, event))
    ensures Agrees(Next(sys, WalletMove(i, event)))
  {
    hide Apply, StepSession, Agrees, AllSafe, StartCommand, NativeValid, StepHand;
    if event.Save? {
      SaveAgrees(sys, i);
    } else {
      QuietAgrees(sys, i, event);
    }
  }

  lemma StepAgrees(sys: System, move: Move)
    requires Agrees(sys) && AllSafe(sys)
    ensures Agrees(Next(sys, move))
  {
    hide StepNode, AllSafe, Agrees;
    if Enabled(sys, move) {
      match move
      case WalletMove(i, event) => MoveAgrees(sys, i, event);
      case DeliverSign(r) => SignKeeps(sys, r);
      case DeliverRegister(r) => RegisterKeeps(sys, r);
      case Restart => RestartKeeps(sys);
    }
  }

  lemma StepStaysSafe(sys: System, move: Move)
    requires AllSafe(sys)
    ensures AllSafe(Next(sys, move))
  {
    hide StepNode, Safe;
    if Enabled(sys, move) && move.WalletMove? {
      var i := move.i;
      var next := Next(sys, move);
      forall j | 0 <= j < |next.nodes| ensures Safe(next.cfgs[j], next.nodes[j]) {
        assert Safe(sys.cfgs[j], sys.nodes[j]);
        if j == i {
          StepKeepsSafe(sys.cfgs[i], sys.nodes[i], move.event);
        }
      }
    }
  }

  lemma InitialAgrees(sys: System)
    requires Initial(sys)
    ensures Agrees(sys) && AllSafe(sys)
  {
    hide Safe, HasCoin, AdoptedOk;
    forall i | 0 <= i < |sys.nodes| ensures Safe(sys.cfgs[i], sys.nodes[i]) {
      FreshIsSafe(CfgOf(sys, i), NodeOf(sys, i).durable.fundingSecret);
    }
  }

  lemma {:induction false} RunAgrees(trace: seq<System>, k: nat)
    requires IsRun(Next, trace) && k < |trace|
    ensures Agrees(StateAt(trace, k)) && AllSafe(StateAt(trace, k))
  {
    hide Next, AllSafe, Agrees;
    if k == 0 {
      InitialAgrees(StateAt(trace, 0));
    } else {
      RunAgrees(trace, k - 1);
      assert Linked(Next, trace, k - 1);
      var move :| StateAt(trace, k) == Next(StateAt(trace, k - 1), move);
      StepAgrees(StateAt(trace, k - 1), move);
      StepStaysSafe(StateAt(trace, k - 1), move);
    }
  }

  /** Every reachable state agrees. */
  lemma ReachableAgrees(sys: System)
    requires Reachable(sys)
    ensures Agrees(sys) && AllSafe(sys)
  {
    hide Next, AllSafe, Agrees;
    var trace :| IsRun(Next, trace) && StateAt(trace, |trace| - 1) == sys;
    RunAgrees(trace, |trace| - 1);
  }

  lemma NextIsReachable(sys: System, move: Move)
    requires Reachable(sys)
    ensures Reachable(Next(sys, move))
  {
    hide Next;
    var trace :| IsRun(Next, trace) && StateAt(trace, |trace| - 1) == sys;
    ExtendRun(trace, move, Next(sys, move));
  }

  lemma ExtendRun(trace: seq<System>, move: Move, next: System)
    requires IsRun(Next, trace) && next == Next(StateAt(trace, |trace| - 1), move)
    ensures IsRun(Next, trace + [next])
  {
    hide Next;
    var longer := trace + [next];
    forall k: int | 0 <= k && k + 1 < |longer| ensures Linked(Next, longer, k) {
      if k + 1 < |trace| {
        assert Linked(Next, trace, k);
        var step :| StateAt(trace, k + 1) == Next(StateAt(trace, k), step);
        assert StateAt(longer, k + 1) == Next(StateAt(longer, k), step);
      } else {
        assert StateAt(longer, k + 1) == Next(StateAt(longer, k), move);
      }
    }
  }
}
