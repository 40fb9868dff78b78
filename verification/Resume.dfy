/**
 Rerunning an interrupted command. From any reachable state in which an
 attempt is journaled and the signer lives, the same command runs through to
 the applied state.
 */
module Resume {
  import opened Wrappers
  import opened Bitcoin
  import opened Enclave
  import opened Client
  import opened Transfer
  import opened Validation
  import opened Funding
  import opened Wallet
  import opened Driver
  import opened DriverSafety
  import opened Updates
  import opened Protocol
  import opened Agreement
  import opened AgreementUpdates
  import opened AgreementSteps
  import opened Fitting
  import opened JointFacts

  /** The system after a sequence of moves. */
  ghost function After(sys: System, moves: seq<Move>): System {
    if moves == [] then sys else Next(After(sys, moves[..|moves| - 1]), moves[|moves| - 1])
  }

  predicate At(sys: System, i: nat, w: WalletState, session: Session) {
    && i < |sys.nodes| && i < |sys.cfgs|
    && NodeOf(sys, i).durable.wallet == w && NodeOf(sys, i).session == session
  }

  /** The command that resumes this pending attempt. */
  predicate Resumes(cmd: Command, w: WalletState) {
    && Attempting(w)
    && match cmd
       case SignCmd(request) => PurposeOf(w) == Transfer(request)
       case FundCmd(p) =>
         && PurposeOf(w).Fund? && PolicyMatches(CoinOf(w), p)
         && AttemptOf(w).delay == p.delay && 0 < p.delay <= U16_MAX
       case _ => false
  }

  function FirstPc(cmd: Command): Pc { if cmd.SignCmd? then SignRecheck else FinStatus }
  function SendPc(cmd: Command): Pc { if cmd.SignCmd? then SignSend else FinSend }
  function WaitPc(cmd: Command): Pc { if cmd.SignCmd? then SignWait else FinWait }
  function CompletePc(cmd: Command): Pc { if cmd.SignCmd? then SignComplete else FinComplete }
  function AppliedPc(cmd: Command): Pc { if cmd.SignCmd? then SignRelease else FundHand }

  lemma KnownWallet(sys: System, i: nat, w: WalletState, session: Session)
    requires Reachable(sys) && At(sys, i, w, session) && w.coin.Some?
    ensures Known(sys.world, i, w)
  {
    hide Reachable, AllSafe, Agrees, Known;
    ReachableAgrees(sys);
    AgreedIsKnown(sys, i, w);
  }

  lemma AgreedIsKnown(sys: System, i: nat, w: WalletState)
    requires Agrees(sys) && i < |sys.nodes| && NodeOf(sys, i).durable.wallet == w && w.coin.Some?
    ensures Known(sys.world, i, w)
  {
    hide SessionsOk;
    var id := CoinOf(w).keys.coinId;
    assert WalletOk(sys.world, i, NodeOf(sys, i).durable.wallet);
    assert LogOk(sys.world, Key(CoinOf(w))) && AdoptedOk(sys.world, id);
    if CoinLive(sys.world, w) {
      assert LiveOk(sys.world, id);
    }
    if Responding(w) {
      assert ReplyOk(sys.world, PendingEntry(w));
    }
  }

  lemma SafeWallet(sys: System, i: nat, w: WalletState, session: Session)
    requires Reachable(sys) && At(sys, i, w, session)
    ensures NativeSafe(CfgOf(sys, i), NodeOf(sys, i).durable) && WalletSafe(w) && Fits(w)
  {
    hide Reachable, SessionSafe, Agrees, NativeValid, Fits;
    ReachableAgrees(sys);
    ReachableFits(sys);
    assert Safe(CfgOf(sys, i), NodeOf(sys, i));
    assert Fits(NodeOf(sys, i).durable.wallet);
  }

  // ---------------------------------------------------------------------------
  // One node, one event.

  function ResumePc(cmd: Command, w: WalletState): Pc {
    if Preparing(w) then FirstPc(cmd) else CompletePc(cmd)
  }

  lemma StartsSignAgain(native: Native, request: TransferRequest)
    requires Resumes(SignCmd(request), native.wallet) && Fits(native.wallet) && native.exit.None?
             && SentIsSpent(native.wallet)
    ensures StartSign(native, request) == Run(SignCmd(request), ResumePc(SignCmd(request), native.wallet))
  {
    hide JsonSize;
  }

  lemma StartsFundAgain(cfg: Config, native: Native, p: FundPolicy)
    requires Resumes(FundCmd(p), native.wallet)
    ensures StartFund(cfg, native, p) == Run(FundCmd(p), ResumePc(FundCmd(p), native.wallet))
  {
  }

  lemma StartsWhenIdle(cfg: Config, node: Node, cmd: Command, drawn: Drawn)
    requires node.session.Idle? && NativeValid(cfg, node.durable)
    ensures StepNode(cfg, node, Start(cmd, drawn))
            == Some((node.(session := StartCommand(cfg, node.durable, cmd, drawn)),
                                                            Silent))
  {
    hide Apply, StepSession, StartCommand, NativeValid, StepHand;
  }

  lemma StartsAgain(cfg: Config, native: Native, cmd: Command, drawn: Drawn)
    requires Resumes(cmd, native.wallet) && Fits(native.wallet) && SentIsSpent(native.wallet)
    requires native.exit.Some? ==> native.wallet.pending.None?
    ensures StartCommand(cfg, native, cmd, drawn) == Run(cmd, ResumePc(cmd, native.wallet))
  {
    hide Apply, StartExit, Fits;
    if cmd.SignCmd? {
      StartsSignAgain(native, cmd.request);
    } else {
      StartsFundAgain(cfg, native, cmd.fund);
    }
  }

  lemma RechecksTransfer(cfg: Config, node: Node, request: TransferRequest, status: CoinStatus, drawn: Drawn)
    requires node.session == Run(SignCmd(request), SignRecheck)
    ensures StepNode(cfg, node, GotStatus(status, drawn))
            == Some((node.(session := Run(SignCmd(request), SignValidate(status))), Silent))
  {
    hide Apply, StartCommand;
  }

  lemma FindsFundingCommitted(cfg: Config, node: Node, p: FundPolicy, status: CoinStatus, drawn: Drawn)
    requires node.session == Run(FundCmd(p), FinStatus) && Attempting(node.durable.wallet)
    requires VerifyStatus(CoinOf(node.durable.wallet).keys, status).Ok?
    requires AttemptCommitted(status, AttemptOf(node.durable.wallet)) == Ok(true)
    ensures StepNode(cfg, node, GotStatus(status, drawn)) == Some((node.(session := Run(FundCmd(p), FinSend)), Silent))
  {
    hide Apply, StartCommand;
  }

  lemma ValidatesFunding(cfg: Config, node: Node, p: FundPolicy, status: CoinStatus, sources: seq<SourceUtxo>,
                          drawn: Drawn)
    requires node.session == Run(FundCmd(p), FinValidate(status)) && Attempting(node.durable.wallet)
    requires FundingIntact(cfg, node.durable, sources)
    ensures StepNode(cfg, node, FundingShown(cfg, sources, drawn))
            == Some((node.(session := Run(FundCmd(p), FinSend)), Silent))
  {
    hide Apply, StepNode, StepSweep, StepSign, ExplorerFundingIntact, StepExit;
    var event := FundingShown(cfg, sources, drawn);
    InputSteps(cfg, node, FundCmd(p), FinValidate(status), event, Run(FundCmd(p), FinSend));
  }

  lemma InputSteps(cfg: Config, node: Node, cmd: Command, pc: Pc, event: Event, session: Session)
    requires node.session == Run(cmd, pc) && (event.Listed? || event.Presence?)
    requires StepSession(cfg, node.durable, cmd, pc, event) == Some(session)
    ensures StepNode(cfg, node, event) == Some((node.(session := session), Silent))
  {
    hide Apply, StepSession, StartCommand, NativeValid, StepHand;
  }

  lemma SendsRequest(node: Node, cmd: Command)
    requires Resumes(cmd, node.durable.wallet) && node.session == Run(cmd, SendPc(cmd))
    ensures StepSend(node)
            == Some((node.(session := Run(cmd, WaitPc(cmd))), SentSign(AttemptOf(node.durable.wallet).request)))
  {
  }

  function Recorded(w: WalletState, response: SignResponse): WalletState {
    w.(pending := Some(PendingRecovery(PurposeOf(w), Responded(AttemptOf(w), response))))
  }

  lemma TakesResponse(cfg: Config, node: Node, cmd: Command, response: SignResponse)
    requires Resumes(cmd, node.durable.wallet) && node.session == Run(cmd, WaitPc(cmd))
    requires Preparing(node.durable.wallet)
    ensures StepNode(cfg, node, GotSigned(response))
         == Some((node.(session := Dirty(cmd, CompletePc(cmd), WalletOp(Record(response)),
                                         node.durable.(wallet := Recorded(node.durable.wallet, response)))), Silent))
  {
  }

  lemma AppliesTransfer(cfg: Config, native: Native, status: CoinStatus, ephemeral: Token, nonce: Token)
    requires CompleteTransfer(native.wallet, status, ephemeral, nonce).Ok?
    ensures Apply(cfg, native, WalletOp(Finish(status, ephemeral, nonce)))
         == Ok(native.(wallet := CompleteTransfer(native.wallet, status, ephemeral, nonce).value.0))
  {
    hide JsonSize;
  }

  /** The update that applies a saved response. */
  function ApplyingOp(cmd: Command, status: CoinStatus, drawn: Drawn): Update {
    if cmd.SignCmd? then WalletOp(Finish(status, drawn.a, drawn.b)) else WalletOp(Secure(status))
  }

  lemma Completes(cfg: Config, node: Node, cmd: Command, status: CoinStatus, drawn: Drawn, vol: Native)
    requires Resumes(cmd, node.durable.wallet) && node.session == Run(cmd, CompletePc(cmd))
    requires Apply(cfg, node.durable, ApplyingOp(cmd, status, drawn)) == Ok(vol)
    ensures StepNode(cfg, node, GotStatus(status, drawn))
         == Some((node.(session := Dirty(cmd, AppliedPc(cmd), ApplyingOp(cmd, status, drawn), vol)), Silent))
  {
    hide Apply, StartCommand;
  }

  lemma Saves(cfg: Config, node: Node, cmd: Command, next: Pc, op: Update, vol: Native)
    requires Safe(cfg, node) && node.session == Dirty(cmd, next, op, vol) && op.WalletOp?
    ensures StepNode(cfg, node, Save)
            == Some((node.(durable := vol, session := AfterSave(cfg, vol, cmd, next)), Silent))
    ensures vol == node.durable.(wallet := vol.wallet)
  {
    hide ApplyWallet, StepSession, StartCommand;
    SaveWrites(cfg, node);
  }

  // ---------------------------------------------------------------------------
  // The same events in the joint system.

  /** Nobody but wallet `i` moved, its exit and sweep journals stayed, and no message was lost. */
  ghost predicate OnlyMoved(sys: System, next: System, i: nat) {
    && next.cfgs == sys.cfgs && |next.nodes| == |sys.nodes| && i < |sys.nodes|
    && (forall k :: 0 <= k < |sys.nodes| && k != i ==> NodeOf(next, k) == NodeOf(sys, k))
    && NodeOf(next, i).durable == NodeOf(sys, i).durable.(wallet := NodeOf(next, i).durable.wallet)
    && sys.world.sent <= next.world.sent && sys.world.sentRegs <= next.world.sentRegs
    && sys.world.replies <= next.world.replies && sys.world.regReplies <= next.world.regReplies
    && sys.world.requests <= next.world.requests && sys.world.packages <= next.world.packages
    && sys.world.limit == next.world.limit && sys.world.nextToken <= next.world.nextToken
  }

  lemma OnlyMovedTwice(sys: System, mid: System, next: System, i: nat)
    requires OnlyMoved(sys, mid, i) && OnlyMoved(mid, next, i)
    ensures OnlyMoved(sys, next, i)
  {
  }

  /** Wallet `i` moved to `session`; nothing was signed or forgotten meanwhile. */
  ghost predicate Advanced(sys: System, next: System, i: nat, w: WalletState, session: Session) {
    && Reachable(next) && At(next, i, w, session) && OnlyMoved(sys, next, i)
    && next.world.coins == sys.world.coins && next.world.logs == sys.world.logs
  }

  lemma WalletAdvances(sys: System, i: nat, event: Event, node: Node, output: Output)
    requires Reachable(sys) && i < |sys.nodes| && i < |sys.cfgs| && Honest(sys.world, NodeOf(sys, i), event)
    requires StepNode(CfgOf(sys, i), NodeOf(sys, i), event) == Some((node, output))
    requires node.durable == NodeOf(sys, i).durable.(wallet := node.durable.wallet)
    ensures var next := Next(sys, WalletMove(i, event));
            && Advanced(sys, next, i, node.durable.wallet, node.session)
            && NodeOf(next, i) == node
            && Carried(next.world, i, output) && next.world.nextToken == sys.world.nextToken + 4
  {
    hide StepNode, SignWorld, Reachable;
    NextIsReachable(sys, WalletMove(i, event));
  }

  /** What a wallet sent is on the network. */
  predicate Carried(world: World, i: nat, output: Output) {
    match output
    case Silent => true
    case SentRegister(r) => r in world.sentRegs
    case SentSign(r) => r in world.sent
    case Published(r) => r in world.requests
    case Released(_, envelope) => (i, envelope) in world.packages
  }

  lemma {:induction false} AfterAppend(sys: System, moves: seq<Move>, move: Move)
    ensures After(sys, moves + [move]) == Next(After(sys, moves), move)
  {
    hide Next;
    assert (moves + [move])[..|moves + [move]| - 1] == moves;
  }

  lemma AdvancedTwice(
      sys: System, mid: System, next: System, i: nat, w: WalletState, s: Session, w': WalletState, s': Session)
    requires Advanced(sys, mid, i, w, s) && Advanced(mid, next, i, w', s')
    ensures Advanced(sys, next, i, w', s')
  {
    hide Reachable;
    OnlyMovedTwice(sys, mid, next, i);
  }

  /** One wallet event appended to a prefix of moves. */
  lemma {:induction false} AdvanceBy(
      sys: System, moves: seq<Move>, i: nat, w: WalletState, s: Session, event: Event, node: Node, output: Output)
    requires Advanced(sys, After(sys, moves), i, w, s)
    requires var mid := After(sys, moves);
             && Honest(mid.world, NodeOf(mid, i), event) && StepNode(CfgOf(mid, i), NodeOf(mid, i), event)
                == Some((node, output))
             && node.durable == NodeOf(mid, i).durable.(wallet := node.durable.wallet)
    ensures var next := After(sys, moves + [WalletMove(i, event)]);
            && Advanced(sys, next, i, node.durable.wallet, node.session) && NodeOf(next, i) == node
            && Carried(next.world, i, output) && next.world.nextToken == After(sys, moves).world.nextToken + 4
  {
    hide StepNode, Next;
    var mid := After(sys, moves);
    AfterAppend(sys, moves, WalletMove(i, event));
    WalletAdvances(mid, i, event, node, output);
    AdvancedTwice(sys, mid, Next(mid, WalletMove(i, event)), i, w, s, node.durable.wallet, node.session);
  }

  lemma {:induction false} NotMovedYet(sys: System, i: nat, w: WalletState, s: Session)
    requires Reachable(sys) && At(sys, i, w, s)
    ensures Advanced(sys, After(sys, []), i, w, s)
  {
    hide Next;
  }

  lemma RestartSteps(sys: System, i: nat, w: WalletState, cmd: Command)
    requires Reachable(sys) && At(sys, i, w, Idle) && Resumes(cmd, w)
    ensures var node, start := NodeOf(sys, i), Start(cmd, Draw(sys.world.nextToken));
            && Honest(sys.world, node, start)
            && StepNode(CfgOf(sys, i), node, start) == Some((node.(session := Run(cmd, ResumePc(cmd, w))), Silent))
  {
    hide StepNode, Known, NativeSafe, Fits, Reachable;
    SafeWallet(sys, i, w, Idle);
    KnownWallet(sys, i, w, Idle);
    SafeRestarts(CfgOf(sys, i), NodeOf(sys, i), cmd, Draw(sys.world.nextToken));
    HonestRestart(sys.world, i, w, NodeOf(sys, i), cmd);
  }

  lemma SafeRestarts(cfg: Config, node: Node, cmd: Command, drawn: Drawn)
    requires NativeSafe(cfg, node.durable) && Fits(node.durable.wallet) && node.session.Idle?
             && Resumes(cmd, node.durable.wallet)
    ensures StepNode(cfg, node, Start(cmd, drawn))
            == Some((node.(session := Run(cmd, ResumePc(cmd, node.durable.wallet))),
                                                            Silent))
  {
    hide Apply, StepNode, NativeValid, StartCommand, Fits;
    StartsWhenIdle(cfg, node, cmd, drawn);
    StartsAgain(cfg, node.durable, cmd, drawn);
  }

  lemma RestartCommand(sys: System, i: nat, w: WalletState, cmd: Command) returns (moves: seq<Move>)
    requires Reachable(sys) && At(sys, i, w, Idle) && Resumes(cmd, w)
    ensures Advanced(sys, After(sys, moves), i, w, Run(cmd, ResumePc(cmd, w)))
  {
    hide StepNode, Next, Honest;
    var start := Start(cmd, Draw(sys.world.nextToken));
    RestartSteps(sys, i, w, cmd);
    NotMovedYet(sys, i, w, Idle);
    AdvanceBy(sys, [], i, w, Idle, start, NodeOf(sys, i).(session := Run(cmd, ResumePc(cmd, w))), Silent);
    moves := [] + [WalletMove(i, start)];
  }

  lemma HonestRestart(world: World, i: nat, w: WalletState, node: Node, cmd: Command)
    requires Known(world, i, w) && Resumes(cmd, w)
    ensures Honest(world, node, Start(cmd, Draw(world.nextToken)))
  {
  }

  // ---------------------------------------------------------------------------
  // From the restarted command to the signing request.

  lemma StatusIsHonest(world: World, i: nat, w: WalletState, node: Node)
    requires Known(world, i, w) && CoinLive(world, w)
    ensures Honest(world, node, GotStatus(LiveStatus(world, w), Draw(world.nextToken)))
  {
    hide Known;
  }

  lemma RecheckSteps(sys: System, i: nat, w: WalletState, request: TransferRequest)
    requires Reachable(sys) && At(sys, i, w, Run(SignCmd(request), SignRecheck)) && w.coin.Some?
             && CoinLive(sys.world, w)
    ensures var node, event := NodeOf(sys, i), GotStatus(LiveStatus(sys.world, w), Draw(sys.world.nextToken));
            && Honest(sys.world, node, event)
            && StepNode(CfgOf(sys, i), node, event)
               == Some((node.(session := Run(SignCmd(request), SignValidate(LiveStatus(sys.world, w)))), Silent))
  {
    hide StepNode, Known, Reachable;
    KnownWallet(sys, i, w, Run(SignCmd(request), SignRecheck));
    StatusIsHonest(sys.world, i, w, NodeOf(sys, i));
    RechecksTransfer(CfgOf(sys, i), NodeOf(sys, i), request, LiveStatus(sys.world, w), Draw(sys.world.nextToken));
  }

  lemma ReachSendTransfer(sys: System, i: nat, w: WalletState, request: TransferRequest, funding: ObservedFunding)
      returns (moves: seq<Move>)
    requires Reachable(sys) && At(sys, i, w, Idle) && Resumes(SignCmd(request), w) && CoinLive(sys.world, w)
    requires Preparing(w)
    requires ValidatePendingTransfer(w, LiveStatus(sys.world, w), funding, CfgOf(sys, i).minConfirmations,
                                     CfgOf(sys, i).minReaction).Ok?
    ensures Advanced(sys, After(sys, moves), i, w, Run(SignCmd(request), SignSend))
  {
    hide StepNode, ValidatePendingTransfer, Next;
    var cmd, status := SignCmd(request), LiveStatus(sys.world, w);
    var first := RestartCommand(sys, i, w, cmd);
    var a := After(sys, first);
    RecheckSteps(a, i, w, request);
    var recheck := GotStatus(status, Draw(a.world.nextToken));
    AdvanceBy(sys, first, i, w, Run(cmd, SignRecheck), recheck,
              NodeOf(a, i).(session := Run(cmd, SignValidate(status))), Silent);
    var second := first + [WalletMove(i, recheck)];
    moves := ValidateMove(sys, i, w, request, funding, second);
  }

  lemma {:induction false} CfgsStay(sys: System, moves: seq<Move>)
    ensures After(sys, moves).cfgs == sys.cfgs
    decreases |moves|
  {
    hide StepNode;
    if moves == [] {
    } else {
      CfgsStay(sys, moves[..|moves| - 1]);
    }
  }

  /** The observation lets the pending transfer pass. */
  predicate Passes(cfg: Config, w: WalletState, status: CoinStatus, event: Event) {
    && event.Observed?
    && ValidatePendingTransfer(w, status, event.funding, cfg.minConfirmations, cfg.minReaction).Ok?
  }

  lemma ValidatesTransfer(cfg: Config, node: Node, request: TransferRequest, status: CoinStatus, event: Event)
    requires node.session == Run(SignCmd(request), SignValidate(status))
             && Passes(cfg, node.durable.wallet, status, event)
    ensures StepNode(cfg, node, event) == Some((node.(session := Run(SignCmd(request), SignSend)), Silent))
  {
    hide Apply, StartCommand, ValidatePendingTransfer;
  }

  lemma ValidateMove(
      sys: System, i: nat, w: WalletState, request: TransferRequest, funding: ObservedFunding, before: seq<Move>)
      returns (moves: seq<Move>)
    requires w.coin.Some? && CoinLive(sys.world, w) && i < |sys.cfgs|
    requires Advanced(sys, After(sys, before), i, w, Run(SignCmd(request), SignValidate(LiveStatus(sys.world, w))))
    requires ValidatePendingTransfer(w, LiveStatus(sys.world, w), funding, CfgOf(sys, i).minConfirmations,
                                     CfgOf(sys, i).minReaction).Ok?
    ensures Advanced(sys, After(sys, moves), i, w, Run(SignCmd(request), SignSend))
  {
    hide StepNode, ValidatePendingTransfer;
    var cmd, status := SignCmd(request), LiveStatus(sys.world, w);
    var b := After(sys, before);
    CfgsStay(sys, before);
    ValidatesTransfer(CfgOf(b, i), NodeOf(b, i), request, status, Sees(funding));
    AdvanceBy(sys, before, i, w, Run(cmd, SignValidate(status)), Sees(funding),
              NodeOf(b, i).(session := Run(cmd, SignSend)), Silent);
    moves := before + [WalletMove(i, Sees(funding))];
  }

  lemma CommittedSteps(sys: System, i: nat, w: WalletState, p: FundPolicy)
    requires Reachable(sys) && At(sys, i, w, Run(FundCmd(p), FinStatus)) && Attempting(w) && CoinLive(sys.world, w)
    requires AttemptCommitted(LiveStatus(sys.world, w), AttemptOf(w)) == Ok(true)
    ensures var node, event := NodeOf(sys, i), GotStatus(LiveStatus(sys.world, w), Draw(sys.world.nextToken));
            && Honest(sys.world, node, event)
            && StepNode(CfgOf(sys, i), node, event) == Some((node.(session := Run(FundCmd(p), FinSend)), Silent))
  {
    hide StepNode, Known, Reachable;
    KnownWallet(sys, i, w, Run(FundCmd(p), FinStatus));
    StatusIsHonest(sys.world, i, w, NodeOf(sys, i));
    KnownCountTest(sys.world, i, w);
    FindsFundingCommitted(CfgOf(sys, i), NodeOf(sys, i), p, LiveStatus(sys.world, w), Draw(sys.world.nextToken));
  }

  /** The funding output is seen, with no spender. */
  function Sees(funding: ObservedFunding): Event {
    Observed(funding, None, false, 0)
  }

  /** What a rerun is shown: the funding output of a transfer, or the deposits a prepared funding spends from. */
  datatype View = View(funding: ObservedFunding, sources: seq<SourceUtxo>)

  /** A prepared funding may be signed: its source is unspent, or (Core) it is final and its delay wide enough. */
  predicate FundingIntact(cfg: Config, native: Native, sources: seq<SourceUtxo>) {
    if cfg.backend.Explorer? then ExplorerFundingIntact(native, sources)
    else
      var coin := CoinOf(native.wallet);
      && coin.metadata.Some? && coin.funding.Some? && coin.funding.value.stage == FundingPrepared
      && ValidateFinalizedFunding(coin.metadata.value, coin.funding.value.tx).Ok?
      && RequireReactionMargin(0, AttemptOf(native.wallet).delay, cfg.minReaction).Ok?
  }

  /** The observation that lets the signing of a funding recovery go on. */
  function FundingShown(cfg: Config, sources: seq<SourceUtxo>, drawn: Drawn): Event {
    if cfg.backend.Explorer?
    then Listed(sources, SourceUtxo(OutPoint(ZeroTxid, 0), TxOut(0, P2tr(Point(0))), 0, false), drawn)
    else Presence(false, false)
  }

  lemma ReachSendFunding(
      sys: System, i: nat, w: WalletState, p: FundPolicy, sources: seq<SourceUtxo>)
      returns (moves: seq<Move>)
    requires Reachable(sys) && At(sys, i, w, Idle) && Resumes(FundCmd(p), w) && CoinLive(sys.world, w)
    requires Preparing(w)
    requires AttemptCommitted(LiveStatus(sys.world, w), AttemptOf(w)) == Ok(true) || FundingIntact(CfgOf(sys, i),
      NodeOf(sys, i).durable, sources)
    ensures Advanced(sys, After(sys, moves), i, w, Run(FundCmd(p), FinSend))
  {
    hide StepNode, FundingIntact, Next, Reachable;
    var first := RestartCommand(sys, i, w, FundCmd(p));
    var a := After(sys, first);
    var check := GotStatus(LiveStatus(sys.world, w), Draw(a.world.nextToken));
    if AttemptCommitted(LiveStatus(sys.world, w), AttemptOf(w)) == Ok(true) {
      CommittedSteps(a, i, w, p);
      AdvanceBy(sys, first, i, w, Run(FundCmd(p), FinStatus), check,
                NodeOf(a, i).(session := Run(FundCmd(p), FinSend)), Silent);
      moves := first + [WalletMove(i, check)];
    } else {
      UncommittedSteps(a, i, w, p);
      var validate := Run(FundCmd(p), FinValidate(LiveStatus(sys.world, w)));
      AdvanceBy(sys, first, i, w, Run(FundCmd(p), FinStatus), check, NodeOf(a, i).(session := validate), Silent);
      moves := ValidateFundingMove(sys, i, w, p, sources, first + [WalletMove(i, check)]);
    }
  }

  lemma UncommittedSteps(sys: System, i: nat, w: WalletState, p: FundPolicy)
    requires Reachable(sys) && At(sys, i, w, Run(FundCmd(p), FinStatus)) && Attempting(w) && CoinLive(sys.world, w)
    requires AttemptCommitted(LiveStatus(sys.world, w), AttemptOf(w)) != Ok(true)
    ensures var node, event := NodeOf(sys, i), GotStatus(LiveStatus(sys.world, w), Draw(sys.world.nextToken));
            && Honest(sys.world, node, event)
            && StepNode(CfgOf(sys, i), node, event)
               == Some((node.(session := Run(FundCmd(p), FinValidate(LiveStatus(sys.world, w)))), Silent))
  {
    hide ApplyWallet, Known, StartCommand, Reachable;
    KnownWallet(sys, i, w, Run(FundCmd(p), FinStatus));
    StatusIsHonest(sys.world, i, w, NodeOf(sys, i));
    KnownCountTest(sys.world, i, w);
  }

  lemma ValidateFundingMove(
      sys: System, i: nat, w: WalletState, p: FundPolicy, sources: seq<SourceUtxo>, before: seq<Move>)
      returns (moves: seq<Move>)
    requires Attempting(w) && CoinLive(sys.world, w) && i < |sys.cfgs| && i < |sys.nodes|
    requires NodeOf(sys, i).durable.wallet == w && FundingIntact(CfgOf(sys, i), NodeOf(sys, i).durable, sources)
    requires Advanced(sys, After(sys, before), i, w, Run(FundCmd(p), FinValidate(LiveStatus(sys.world, w))))
    ensures Advanced(sys, After(sys, moves), i, w, Run(FundCmd(p), FinSend))
  {
    hide StepNode, FundingIntact, CoinLive, Next;
    var b, event := After(sys, before), FundingShown(CfgOf(sys, i), sources, Draw(After(sys, before).world.nextToken));
    ValidatesFunding(CfgOf(b, i), NodeOf(b, i), p, LiveStatus(sys.world, w), sources, Draw(b.world.nextToken));
    AdvanceBy(sys, before, i, w, Run(FundCmd(p), FinValidate(LiveStatus(sys.world, w))), event,
              NodeOf(b, i).(session := Run(FundCmd(p), FinSend)), Silent);
    moves := before + [WalletMove(i, event)];
  }

  lemma SendMove(sys: System, i: nat, w: WalletState, cmd: Command, before: seq<Move>) returns (moves: seq<Move>)
    requires Resumes(cmd, w) && Advanced(sys, After(sys, before), i, w, Run(cmd, SendPc(cmd)))
    ensures Advanced(sys, After(sys, moves), i, w, Run(cmd, WaitPc(cmd)))
    ensures AttemptOf(w).request in After(sys, moves).world.sent
  {
    hide Apply, StepSession;
    var a := After(sys, before);
    SendsRequest(NodeOf(a, i), cmd);
    AdvanceBy(sys, before, i, w, Run(cmd, SendPc(cmd)), Send, NodeOf(a, i).(session := Run(cmd, WaitPc(cmd))),
              SentSign(AttemptOf(w).request));
    moves := before + [WalletMove(i, Send)];
  }

  // ---------------------------------------------------------------------------
  // The signer's answer.

  /** The answer to the pending request is the newest entry of the coin's log,
  whether signed now or answered from the cache. */
  lemma AnswerMove(sys: System, i: nat, w: WalletState, cmd: Command) returns (response: SignResponse)
    requires Reachable(sys) && At(sys, i, w, Run(cmd, WaitPc(cmd))) && Resumes(cmd, w) && CoinLive(sys.world, w)
    requires AttemptOf(w).request in sys.world.sent
    ensures var next := Next(sys, DeliverSign(AttemptOf(w).request));
            && Reachable(next) && At(next, i, w, Run(cmd, WaitPc(cmd))) && OnlyMoved(sys, next, i)
            && CoinLive(next.world, w)
            && Entry(AttemptOf(w).request, response) in next.world.replies
            && AtNewest(next.world, Recorded(w, response))
  {
    hide Next, Known, SignWorld;
    var r := AttemptOf(w).request;
    KnownWallet(sys, i, w, Run(cmd, WaitPc(cmd)));
    SignMoves(sys, i, r);
    var next := Next(sys, DeliverSign(r));
    KnownWallet(next, i, w, Run(cmd, WaitPc(cmd)));
    response := AnswerIsNewest(sys.world, next.world, i, w);
  }

  lemma SignMoves(sys: System, i: nat, r: SignRequest)
    requires Reachable(sys) && r in sys.world.sent && i < |sys.nodes|
    ensures var next := Next(sys, DeliverSign(r));
            Reachable(next) && next == sys.(world := SignWorld(sys.world, r)) && OnlyMoved(sys, next, i)
  {
    hide StepNode, Honest;
    NextIsReachable(sys, DeliverSign(r));
  }

  lemma AnswerIsNewest(a: World, b: World, i: nat, w: WalletState) returns (response: SignResponse)
    requires Known(a, i, w) && Attempting(w) && CoinLive(a, w)
    requires b == SignWorld(a, AttemptOf(w).request) && Known(b, i, w)
    ensures CoinLive(b, w)
    ensures Entry(AttemptOf(w).request, response) in b.replies
    ensures AtNewest(b, Recorded(w, response))
  {
    hide *;
    response := AnswerIsLogged(a, b, i, w);
    LoggedIsNewest(b, i, w, response);
  }

  lemma AnswerIsLogged(a: World, b: World, i: nat, w: WalletState) returns (response: SignResponse)
    requires Known(a, i, w) && Attempting(w) && CoinLive(a, w)
    requires b == SignWorld(a, AttemptOf(w).request)
    ensures CoinLive(b, w)
    ensures Entry(AttemptOf(w).request, response) in b.replies
    ensures Entry(AttemptOf(w).request, response) in CoinLogOf(b, w).entries
  {
    hide *;
    var r := AttemptOf(w).request;
    PendingIsAnswered(a, i, w, a.nextToken);
    response := SignWith(a.coins, r, a.nextToken).1.value;
    AnswerJoinsLog(a, b, i, w, response);
  }

  lemma AnswerJoinsLog(a: World, b: World, i: nat, w: WalletState, response: SignResponse)
    requires Known(a, i, w) && Attempting(w) && CoinLive(a, w)
    requires b == SignWorld(a, AttemptOf(w).request)
    requires SignWith(a.coins, AttemptOf(w).request, a.nextToken).1 == Ok(response)
    ensures CoinLive(b, w)
    ensures Entry(AttemptOf(w).request, response) in b.replies
    ensures Entry(AttemptOf(w).request, response) in CoinLogOf(b, w).entries
  {
    hide AdoptedOk, CanonicalRecovery, PurposeOk;
    var r := AttemptOf(w).request;
    var live := a.coins[r.coinId];
    if live.last.Some? && live.last.value.0 == r {
      CachedAnswerIsLogged(a, CoinLogOf(a, w), live, r, response);
      assert a.coins[r.coinId := live] == a.coins;
    } else {
      assert SignWith(a.coins, r, a.nextToken).0[r.coinId].count != live.count;
      LastIsIn(CoinLogOf(a, w), Entry(r, response));
    }
  }

  lemma CachedAnswerIsLogged(a: World, log: CoinLog, live: Coin, r: SignRequest, response: SignResponse)
    requires Explains(log, r.coinId, live) && live.last.Some? && live.last.value.0 == r
    requires SignCoin(live, r, a.nextToken) == Ok((live, response))
    ensures Entry(r, response) in log.entries
  {
    assert log.entries[|log.entries| - 1] == Entry(r, response);
  }

  lemma LastIsIn(log: CoinLog, e: Entry)
    ensures e in Append(log, e).entries
  {
    assert Append(log, e).entries[|log.entries|] == e;
  }

  lemma LoggedIsNewest(b: World, i: nat, w: WalletState, response: SignResponse)
    requires Known(b, i, w) && Attempting(w)
    requires Entry(AttemptOf(w).request, response) in CoinLogOf(b, w).entries
    ensures AtNewest(b, Recorded(w, response))
  {
    var log := CoinLogOf(b, w);
    var p :| 0 <= p < |log.entries| && log.entries[p] == Entry(AttemptOf(w).request, response);
    SignedAtPosition(Key(CoinOf(w)), log, CoinOf(w), AttemptOf(w), p);
    RecordedReads(w, response);
  }

  lemma RecordedReads(w: WalletState, response: SignResponse)
    requires Attempting(w)
    ensures var r := Recorded(w, response);
            && Responding(r) && r.coin == w.coin && CoinOf(r) == CoinOf(w)
            && PendingEntry(r) == Entry(AttemptOf(w).request, response)
  {
  }

  // ---------------------------------------------------------------------------
  // From the reply to the applied state.

  /** The response is saved before anything is applied. */
  lemma RecordMoves(
      sys: System, i: nat, w: WalletState, cmd: Command, response: SignResponse)
      returns (moves: seq<Move>)
    requires Reachable(sys) && At(sys, i, w, Run(cmd, WaitPc(cmd))) && Resumes(cmd, w)
    requires Preparing(w) && Entry(AttemptOf(w).request, response) in sys.world.replies
    ensures Advanced(sys, After(sys, moves), i, Recorded(w, response), Run(cmd, CompletePc(cmd)))
  {
    hide StepNode, AfterSave, Next, Reachable, Resumes;
    var node := NodeOf(sys, i);
    var vol := node.durable.(wallet := Recorded(w, response));
    var dirty := Dirty(cmd, CompletePc(cmd), WalletOp(Record(response)), vol);
    NotMovedYet(sys, i, w, node.session);
    TakesResponse(CfgOf(sys, i), node, cmd, response);
    GoesOnAfterSave(CfgOf(sys, i), vol, cmd, CompletePc(cmd));
    AdvanceBy(sys, [], i, w, node.session, GotSigned(response), node.(session := dirty), Silent);
    moves := SaveMove(sys, [] + [WalletMove(i, GotSigned(response))], i, w, cmd, CompletePc(cmd), dirty.op, vol,
                      Run(cmd, CompletePc(cmd)));
  }

  lemma SaveMove(
      sys: System, before: seq<Move>, i: nat, w: WalletState, cmd: Command, next: Pc, op: Update, vol: Native,
      session: Session)
      returns (moves: seq<Move>)
    requires Advanced(sys, After(sys, before), i, w, Dirty(cmd, next, op, vol)) && op.WalletOp?
    requires i < |sys.cfgs| && AfterSave(CfgOf(sys, i), vol, cmd, next) == session
    ensures Advanced(sys, After(sys, moves), i, vol.wallet, session)
  {
    hide StepNode, Apply, Safe, Next, AfterSave;
    var a := After(sys, before);
    ReachableIsSafe(a, i);
    Saves(CfgOf(a, i), NodeOf(a, i), cmd, next, op, vol);
    AdvanceBy(sys, before, i, w, Dirty(cmd, next, op, vol), Save, NodeOf(a, i).(durable := vol, session := session),
              Silent);
    moves := before + [WalletMove(i, Save)];
  }

  lemma ReachableIsSafe(sys: System, i: nat)
    requires Reachable(sys) && i < |sys.nodes| && i < |sys.cfgs|
    ensures Safe(CfgOf(sys, i), NodeOf(sys, i))
  {
    hide Reachable, Safe, Agrees;
    ReachableAgrees(sys);
  }

  /** `w'` is `w` with its journaled attempt applied: the coin sent to the named request, or its funding secured. */
  predicate Applied(w: WalletState, w': WalletState) {
    && Attempting(w) && w'.pending.None? && w'.coin.Some? && CoinOf(w').keys == CoinOf(w).keys
    && CoinOf(w').metadata == CoinOf(w).metadata
    && match PurposeOf(w)
       case Transfer(request) =>
         && CoinOf(w').outgoing.Some? && OutgoingOf(w').request == request
         && |OutgoingOf(w').envelope.ciphertext.payload.history| == |CoinOf(w).history| + 1
       case Fund(nextCap, secret) =>
         && CoinOf(w').currentCap == Some(nextCap) && CoinOf(w').withdrawalSecret == Some(secret)
         && |CoinOf(w').history| == 1 && CoinOf(w').history[0].delay == AttemptOf(w).delay
         && CoinOf(w).funding.Some? && CoinOf(w').funding == Some(FundingOf(w).(stage := RecoverySecured))
  }

  lemma ApplyingSucceeds(sys: System, i: nat, w: WalletState, cmd: Command, drawn: Drawn) returns (vol: Native)
    requires Reachable(sys) && At(sys, i, w, Run(cmd, CompletePc(cmd))) && Resumes(cmd, w)
    requires CoinLive(sys.world, w) && Responding(w)
    ensures Apply(CfgOf(sys, i), NodeOf(sys, i).durable, ApplyingOp(cmd, LiveStatus(sys.world, w), drawn)) == Ok(vol)
    ensures Applied(w, vol.wallet)
  {
    hide Reachable, Apply, NativeSafe, Known, Fits;
    var native, status := NodeOf(sys, i).durable, LiveStatus(sys.world, w);
    KnownWallet(sys, i, w, Run(cmd, CompletePc(cmd)));
    SafeWallet(sys, i, w, Run(cmd, CompletePc(cmd)));
    vol := KnownApplies(CfgOf(sys, i), sys.world, i, w, native, cmd, drawn);
  }

  lemma TransferApplies(
      cfg: Config, world: World, i: nat, w: WalletState, native: Native, drawn: Drawn)
      returns (vol: Native)
    requires Known(world, i, w) && Responding(w) && CoinLive(world, w) && Fits(w) && AtNewest(world, w)
    requires native.wallet == w && PurposeOf(w).Transfer?
    ensures Apply(cfg, native, WalletOp(Finish(LiveStatus(world, w), drawn.a, drawn.b))) == Ok(vol)
    ensures Applied(w, vol.wallet)
  {
    hide ApplyWallet, Known, CompleteTransfer;
    var status := LiveStatus(world, w);
    TransferCompletes(world, i, w, drawn.a, drawn.b);
    AppliesTransfer(cfg, native, status, drawn.a, drawn.b);
    vol := native.(wallet := CompleteTransfer(w, status, drawn.a, drawn.b).value.0);
    FinishShape(cfg, native.fundingSecret, w, Finish(status, drawn.a, drawn.b), vol.wallet);
  }

  lemma FundingApplies(cfg: Config, world: World, i: nat, w: WalletState, native: Native) returns (vol: Native)
    requires Known(world, i, w) && Responding(w) && CoinLive(world, w) && WalletSafe(w) && AtNewest(world, w)
    requires native.wallet == w && PurposeOf(w).Fund?
    ensures Apply(cfg, native, WalletOp(Secure(LiveStatus(world, w)))) == Ok(vol)
    ensures Applied(w, vol.wallet)
  {
    hide Known, BeginTransfer, AcceptTransfer;
    var status := LiveStatus(world, w);
    FundingCompletes(world, i, w);
    vol := native.(wallet := CompleteFunding(w, status).value);
    SecureShape(cfg, native.fundingSecret, w, Secure(status), vol.wallet);
  }

  lemma KnownApplies(cfg: Config, world: World, i: nat, w: WalletState, native: Native, cmd: Command, drawn: Drawn)
      returns (vol: Native)
    requires Known(world, i, w) && Responding(w) && CoinLive(world, w) && Fits(w) && WalletSafe(w)
    requires native.wallet == w && Resumes(cmd, w)
    ensures Apply(cfg, native, ApplyingOp(cmd, LiveStatus(world, w), drawn)) == Ok(vol)
    ensures Applied(w, vol.wallet)
  {
    hide Apply, Known, Fits, Applied, WalletSafe;
    LiveResponseIsNewest(world, i, w);
    if cmd.SignCmd? {
      vol := TransferApplies(cfg, world, i, w, native, drawn);
    } else {
      vol := FundingApplies(cfg, world, i, w, native);
    }
  }

  lemma CompletionMove(
      sys: System, i: nat, w: WalletState, cmd: Command)
      returns (moves: seq<Move>, op: Update, vol: Native)
    requires Reachable(sys) && At(sys, i, w, Run(cmd, CompletePc(cmd))) && Resumes(cmd, w)
    requires CoinLive(sys.world, w) && Responding(w)
    ensures Advanced(sys, After(sys, moves), i, w, Dirty(cmd, AppliedPc(cmd), op, vol)) && op.WalletOp?
            && Applied(w, vol.wallet)
  {
    hide StepNode, Apply, Known, Next, Reachable;
    var node, status, drawn := NodeOf(sys, i), LiveStatus(sys.world, w), Draw(sys.world.nextToken);
    vol := ApplyingSucceeds(sys, i, w, cmd, drawn);
    op := ApplyingOp(cmd, status, drawn);
    NotMovedYet(sys, i, w, node.session);
    KnownWallet(sys, i, w, node.session);
    StatusIsHonest(sys.world, i, w, node);
    Completes(CfgOf(sys, i), node, cmd, status, drawn, vol);
    AdvanceBy(sys, [], i, w, node.session, GotStatus(status, drawn),
              node.(session := Dirty(cmd, AppliedPc(cmd), op, vol)),
              Silent);
    moves := [] + [WalletMove(i, GotStatus(status, drawn))];
  }

  lemma GoesOnAfterSave(cfg: Config, vol: Native, cmd: Command, next: Pc)
    requires next == FirstPc(cmd) || next == CompletePc(cmd) || next == AppliedPc(cmd)
    ensures AfterSave(cfg, vol, cmd, next) == Run(cmd, next)
  {
    hide Updating;
  }

  lemma CompleteMoves(sys: System, i: nat, w: WalletState, cmd: Command) returns (moves: seq<Move>, w': WalletState)
    requires Reachable(sys) && At(sys, i, w, Run(cmd, CompletePc(cmd))) && Resumes(cmd, w)
    requires CoinLive(sys.world, w) && Responding(w)
    ensures Advanced(sys, After(sys, moves), i, w', Run(cmd, AppliedPc(cmd))) && Applied(w, w')
  {
    hide Next, AfterSave, Reachable;
    var first, op, vol := CompletionMove(sys, i, w, cmd);
    GoesOnAfterSave(CfgOf(sys, i), vol, cmd, AppliedPc(cmd));
    moves := SaveMove(sys, first, i, w, cmd, AppliedPc(cmd), op, vol, Run(cmd, AppliedPc(cmd)));
    w' := vol.wallet;
  }

  // ---------------------------------------------------------------------------
  // The whole rerun.

  lemma {:induction false} AfterConcat(sys: System, a: seq<Move>, b: seq<Move>)
    ensures After(After(sys, a), b) == After(sys, a + b)
    decreases |b|
  {
    hide Next;
    if b == [] {
      assert a + b == a;
    } else {
      AfterConcat(sys, a, b[..|b| - 1]);
      assert (a + b)[..|a + b| - 1] == a + b[..|b| - 1];
    }
  }

  /** The signature exists already, or the chain still allows it. */
  predicate MayProceed(cfg: Config, world: World, native: Native, cmd: Command, view: View) {
    var w := native.wallet;
    Preparing(w) ==>
      || AttemptCommitted(LiveStatus(world, w), AttemptOf(w)) == Ok(true)
      || (if cmd.SignCmd?
          then ValidatePendingTransfer(w, LiveStatus(world, w), view.funding, cfg.minConfirmations, cfg.minReaction).Ok?
          else FundingIntact(cfg, native, view.sources))
  }

  lemma CommittedTransferMayProceed(sys: System, i: nat, w: WalletState, request: TransferRequest, view: View)
    requires Reachable(sys) && At(sys, i, w, Idle) && Resumes(SignCmd(request), w) && CoinLive(sys.world, w)
    requires Preparing(w) && MayProceed(CfgOf(sys, i), sys.world, NodeOf(sys, i).durable, SignCmd(request), view)
    ensures ValidatePendingTransfer(w, LiveStatus(sys.world, w), view.funding, CfgOf(sys, i).minConfirmations,
                                    CfgOf(sys, i).minReaction).Ok?
  {
    hide Reachable, Known, NativeSafe, ValidatePendingTransfer, FundingIntact;
    KnownWallet(sys, i, w, Idle);
    SafeWallet(sys, i, w, Idle);
    KnownRevalidates(sys.world, i, w, view.funding, CfgOf(sys, i).minConfirmations, CfgOf(sys, i).minReaction);
  }

  /** A prepared attempt gets its one response saved. */
  lemma ReachResponse(sys: System, i: nat, w: WalletState, cmd: Command, view: View)
      returns (moves: seq<Move>, response: SignResponse)
    requires Reachable(sys) && At(sys, i, w, Idle) && Resumes(cmd, w) && CoinLive(sys.world, w)
    requires Preparing(w) && MayProceed(CfgOf(sys, i), sys.world, NodeOf(sys, i).durable, cmd, view)
    ensures var done := After(sys, moves);
            && Reachable(done) && At(done, i, Recorded(w, response), Run(cmd, CompletePc(cmd)))
            && OnlyMoved(sys, done, i)
            && CoinLive(done.world, w) && AtNewest(done.world, Recorded(w, response))
  {
    hide Next, ValidatePendingTransfer, FundingIntact;
    var sending: seq<Move>;
    if cmd.SignCmd? {
      CommittedTransferMayProceed(sys, i, w, cmd.request, view);
      sending := ReachSendTransfer(sys, i, w, cmd.request, view.funding);
    } else {
      sending := ReachSendFunding(sys, i, w, cmd.fund, view.sources);
    }
    var waiting := SendMove(sys, i, w, cmd, sending);
    moves, response := AnswerAndRecord(sys, i, w, cmd, waiting);
  }

  lemma AnswerAndRecord(sys: System, i: nat, w: WalletState, cmd: Command, waiting: seq<Move>)
      returns (moves: seq<Move>, response: SignResponse)
    requires Resumes(cmd, w) && Preparing(w) && CoinLive(sys.world, w)
    requires Advanced(sys, After(sys, waiting), i, w, Run(cmd, WaitPc(cmd)))
    requires AttemptOf(w).request in After(sys, waiting).world.sent
    ensures var done := After(sys, moves);
            && Reachable(done) && At(done, i, Recorded(w, response), Run(cmd, CompletePc(cmd)))
            && OnlyMoved(sys, done, i)
            && CoinLive(done.world, w) && AtNewest(done.world, Recorded(w, response))
  {
    hide Next, Reachable;
    var a := After(sys, waiting);
    response := AnswerMove(a, i, w, cmd);
    var answered := waiting + [DeliverSign(AttemptOf(w).request)];
    AfterAppend(sys, waiting, DeliverSign(AttemptOf(w).request));
    var recording := RecordMoves(After(sys, answered), i, w, cmd, response);
    AfterConcat(sys, answered, recording);
    OnlyMovedTwice(sys, a, After(sys, answered), i);
    OnlyMovedTwice(sys, After(sys, answered), After(sys, answered + recording), i);
    moves := answered + recording;
  }

  /**
   From any crash point with a journaled attempt, while the signer lives: if
   the attempt was signed already, or a response is saved, rerunning the same
   command reaches the applied state whatever the chain shows; otherwise it
   does so whenever the chain still allows it. The coin's log has then grown
   to exactly one entry past the wallet's history.
   */
  lemma RerunApplies(sys: System, i: nat, w: WalletState, cmd: Command, view: View)
      returns (moves: seq<Move>, w': WalletState)
    requires Reachable(sys) && At(sys, i, w, Idle) && Resumes(cmd, w) && CoinLive(sys.world, w)
    requires MayProceed(CfgOf(sys, i), sys.world, NodeOf(sys, i).durable, cmd, view)
    ensures var done := After(sys, moves);
            && Reachable(done) && At(done, i, w', Run(cmd, AppliedPc(cmd))) && Applied(w, w')
            && OnlyMoved(sys, done, i) && CoinLive(done.world, w)
            && |CoinLogOf(done.world, w).entries| == |CoinOf(w).history| + 1
  {
    hide Next, MayProceed, Reachable;
    var first: seq<Move>;
    var w1 := w;
    if Preparing(w) {
      var response: SignResponse;
      first, response := ReachResponse(sys, i, w, cmd, view);
      w1 := Recorded(w, response);
    } else {
      first := RestartCommand(sys, i, w, cmd);
      RespondedIsNewest(After(sys, first), i, w, cmd);
    }
    moves, w' := ApplyAndClose(sys, i, w, w1, cmd, first);
  }

  lemma RespondedIsNewest(sys: System, i: nat, w: WalletState, cmd: Command)
    requires Reachable(sys) && At(sys, i, w, Run(cmd, CompletePc(cmd))) && Responding(w) && CoinLive(sys.world, w)
    ensures AtNewest(sys.world, w)
  {
    hide Reachable, Known;
    KnownWallet(sys, i, w, Run(cmd, CompletePc(cmd)));
    LiveResponseIsNewest(sys.world, i, w);
  }

  lemma ApplyAndClose(sys: System, i: nat, w: WalletState, w1: WalletState, cmd: Command, first: seq<Move>)
      returns (moves: seq<Move>, w': WalletState)
    requires Resumes(cmd, w) && Responding(w1) && w1.coin == w.coin && PurposeOf(w1) == PurposeOf(w)
    requires AttemptOf(w1) == AttemptOf(w)
    requires var mid := After(sys, first);
             && Reachable(mid) && At(mid, i, w1, Run(cmd, CompletePc(cmd))) && OnlyMoved(sys, mid, i)
             && CoinLive(mid.world, w) && AtNewest(mid.world, w1)
    ensures var done := After(sys, moves);
            && Reachable(done) && At(done, i, w', Run(cmd, AppliedPc(cmd))) && Applied(w, w')
            && OnlyMoved(sys, done, i) && CoinLive(done.world, w)
            && |CoinLogOf(done.world, w).entries| == |CoinOf(w).history| + 1
  {
    hide Next, Reachable;
    var second: seq<Move>;
    second, w' := CompleteMoves(After(sys, first), i, w1, cmd);
    AfterConcat(sys, first, second);
    OnlyMovedTwice(sys, After(sys, first), After(sys, first + second), i);
    moves := first + second;
  }
}
