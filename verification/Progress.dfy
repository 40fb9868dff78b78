/** New transfers run through to the end; one that reuses a consumed request strands its coin. */
module Progress {
  import opened Wrappers
  import opened Bitcoin
  import opened Enclave
  import opened Client
  import opened Transfer
  import opened Validation
  import opened Wallet
  import opened Driver
  import opened DriverSafety
  import opened Updates
  import opened Ledger
  import opened Protocol
  import opened Agreement
  import opened Growth
  import opened AgreementSigner
  import opened AgreementUpdates
  import opened AgreementSteps
  import opened Fitting
  import opened JointFacts
  import opened Resume
  import opened Handover
  import opened JointTheorems

  // ---------------------------------------------------------------------------
  // The log only grows.

  ghost predicate LogsGrow(a: World, b: World) {
    forall key {:trigger a.logs[key]} :: key in a.logs ==> key in b.logs && Extends(a.logs[key], b.logs[key])
  }

  lemma SignLogsGrow(a: World, r: SignRequest)
    requires LogsOk(a) && CoinsOk(a)
    ensures LogsGrow(a, SignWorld(a, r))
  {
    var e := SignWorldShape(a, r);
  }

  lemma RegisterLogsGrow(a: World, r: RegisterRequest)
    requires LogsOk(a)
    ensures LogsGrow(a, RegisterWorld(a, r))
  {
    var b := RegisterWorld(a, r);
    RegisterShape(a, r);
    if b != a {
      RegisteredGrows(a, b, r, b.coins[r.coinId].Status(r.coinId));
    }
  }

  lemma SavingKeepsLogs(world: World, i: nat, w: WalletState, output: Output)
    ensures AfterWallet(world, i, w, output).logs == world.logs
  {
  }

  lemma WalletLogsStay(sys: System, i: nat, event: Event)
    ensures Next(sys, WalletMove(i, event)).world.logs == sys.world.logs
  {
    hide StepNode;
    if Enabled(sys, WalletMove(i, event)) {
      var next := Or(StepNode(CfgOf(sys, i), NodeOf(sys, i), event), (NodeOf(sys, i), Silent));
      SavingKeepsLogs(sys.world, i, next.0.durable.wallet, next.1);
    }
  }

  lemma NextLogsGrow(sys: System, move: Move)
    requires LogsOk(sys.world) && CoinsOk(sys.world)
    ensures LogsGrow(sys.world, Next(sys, move).world)
  {
    hide StepNode, Enabled;
    if move.WalletMove? {
      WalletLogsStay(sys, move.i, move.event);
    } else {
      if move.DeliverSign? {
        SignLogsGrow(sys.world, move.sign);
      } else if move.DeliverRegister? {
        RegisterLogsGrow(sys.world, move.register);
      }
    }
  }

  /** Whatever happens next, restarts included, no signature ever leaves a log. */
  lemma {:induction false} LogsOnlyGrow(sys: System, moves: seq<Move>)
    requires Reachable(sys)
    ensures Reachable(After(sys, moves)) && LogsGrow(sys.world, After(sys, moves).world)
    decreases |moves|
  {
    hide Next;
    if moves == [] {
    } else {
      var before := moves[..|moves| - 1];
      LogsOnlyGrow(sys, before);
      OneMoreMove(sys.world, After(sys, before), moves[|moves| - 1]);
    }
  }

  lemma OneMoreMove(first: World, mid: System, move: Move)
    requires Reachable(mid) && LogsGrow(first, mid.world)
    ensures Reachable(Next(mid, move)) && LogsGrow(first, Next(mid, move).world)
  {
    hide Next, AllSafe, NodesOk, MessagesOk;
    ReachableAgrees(mid);
    NextLogsGrow(mid, move);
    NextIsReachable(mid, move);
    GrowTwice(first, mid.world, Next(mid, move).world);
  }

  lemma GrowTwice(a: World, b: World, c: World)
    requires LogsGrow(a, b) && LogsGrow(b, c)
    ensures LogsGrow(a, c)
  {
    forall key | key in a.logs ensures key in c.logs && Extends(a.logs[key], c.logs[key]) {
      assert Extends(a.logs[key], b.logs[key]) && Extends(b.logs[key], c.logs[key]);
    }
  }

  // ---------------------------------------------------------------------------
  // Beginning a transfer.

  /** What `begin_transfer` accepted passes its own re-validation as long as nothing moved. */
  lemma BegunRevalidates(
      w: WalletState, network: NetworkId, request: TransferRequest, status: CoinStatus, observed: ObservedFunding,
      minConfirmations: u32, minReaction: u32)
    requires BeginTransfer(w, network, request, status, observed, minConfirmations, minReaction).Ok?
    requires status.count < U64_MAX
    requires w.coin.Some? && CoinOf(w).metadata.Some? ==> MetadataOf(w).keys == CoinOf(w).keys
    ensures ValidatePendingTransfer(BeginTransfer(w, network, request, status, observed, minConfirmations,
                                                  minReaction).value.0,
                                    status, observed, minConfirmations, minReaction) == Ok(())
  {
    hide VerifyHistory, JsonSize;
    BeginNeedsGate(w, network, request, status, observed, minConfirmations, minReaction);
    GateDecidesBegin(w, network, request, status, observed, minConfirmations, minReaction);
    var coin := CoinOf(w);
    TransferAttemptShape(coin, coin.metadata.value, request, status, observed.confirmations, minReaction);
    var begun := BeginTransfer(w, network, request, status, observed, minConfirmations, minReaction).value.0;
    BegunIs(w, network, request, status, observed, minConfirmations, minReaction);
    AttemptIsGated(coin, coin.metadata.value, request, status, observed.confirmations, minReaction);
    RevalidatesFromParts(w, begun, network, request, AttemptOf(begun), status, observed, minConfirmations,
                         minReaction);
  }

  lemma BegunIs(
      w: WalletState, network: NetworkId, request: TransferRequest, status: CoinStatus, observed: ObservedFunding,
      minConfirmations: u32, minReaction: u32)
    requires BeginTransfer(w, network, request, status, observed, minConfirmations, minReaction).Ok?
    requires BeginGate(w, network, request, status, observed, minConfirmations)
    requires TransferAttempt(CoinOf(w), MetadataOf(w), request, status, observed.confirmations,
                             minReaction).Ok?
    ensures BeginTransfer(w, network, request, status, observed, minConfirmations, minReaction).value.0
         == w.(pending := Some(PendingRecovery(Transfer(request), Prepared(
              TransferAttempt(CoinOf(w), MetadataOf(w), request, status, observed.confirmations,
                              minReaction).value))))
  {
  }

  lemma RevalidatesFromParts(
      w: WalletState, begun: WalletState, network: NetworkId, request: TransferRequest, attempt: RecoveryAttempt,
      status: CoinStatus,
      observed: ObservedFunding, minConfirmations: u32, minReaction: u32)
    requires BeginGate(w, network, request, status, observed, minConfirmations) && status.count < U64_MAX
    requires MetadataOf(w).keys == CoinOf(w).keys
    requires begun == w.(pending := Some(PendingRecovery(Transfer(request), Prepared(attempt))))
    requires var coin := CoinOf(w);
             && Last(coin.history).delay >= DELAY_STEP
             && RequireReactionMargin(observed.confirmations, Last(coin.history).delay - DELAY_STEP,
                                      LargerMargin(minReaction, request)).Ok?
             && NextPrepared(coin, coin.metadata.value, request, status, observed.confirmations).Ok?
             && var p := NextPrepared(coin, coin.metadata.value, request, status, observed.confirmations).value;
                attempt == RecoveryAttempt(status.count, Last(coin.history).delay - DELAY_STEP, p.0, p.1)
    ensures ValidatePendingTransfer(begun, status, observed, minConfirmations, minReaction) == Ok(())
  {
    hide VerifyRecoveries;
    var coin := CoinOf(w);
    PreparedIsCanonical(coin.metadata.value, status, coin.clientSecret, coin.currentCap.value,
                        coin.currentHandoff.value,
                        request.nextCapHash, request.withdrawal, attempt.delay, observed.confirmations);
  }

  // ---------------------------------------------------------------------------
  // A new transfer from start to end.

  lemma TakesStatus(cfg: Config, node: Node, request: TransferRequest, status: CoinStatus, drawn: Drawn)
    requires node.session == Run(SignCmd(request), SignStatus)
    ensures StepNode(cfg, node, GotStatus(status, drawn))
            == Some((node.(session := Run(SignCmd(request), SignObserve(status))), Silent))
  {
    hide Apply, StartCommand;
  }

  function Begun(cfg: Config, w: WalletState, request: TransferRequest, status: CoinStatus, funding: ObservedFunding)
    : Result<(WalletState, SignRequest), WalletError>
  {
    BeginTransfer(w, cfg.network, request, status, funding, cfg.minConfirmations, cfg.minReaction)
  }

  /** The state a successful `begin_transfer` journals. */
  function BegunState(
      cfg: Config, w: WalletState, request: TransferRequest, status: CoinStatus, funding: ObservedFunding)
      : WalletState {
    var r := Begun(cfg, w, request, status, funding);
    if r.Ok? then r.value.0 else w
  }

  lemma AppliesBegin(
      cfg: Config, native: Native, u: WalletUpdate, begun: Result<(WalletState, SignRequest), WalletError>)
    requires u.Begin? && begun == Begun(cfg, native.wallet, u.request, u.status, u.observed) && begun.Ok?
    ensures Apply(cfg, native, WalletOp(u)) == Ok(native.(wallet := begun.value.0))
  {
  }

  lemma BeginsTransfer(
      cfg: Config, node: Node, request: TransferRequest, status: CoinStatus, funding: ObservedFunding, vol: Native)
    requires node.session == Run(SignCmd(request), SignObserve(status))
    requires Apply(cfg, node.durable, WalletOp(Begin(request, status, funding))) == Ok(vol)
    ensures StepNode(cfg, node, Sees(funding))
         == Some((node.(session := Dirty(SignCmd(request), SignRecheck, WalletOp(Begin(request, status, funding)),
                                         vol)),
                  Silent))
  {
    hide Apply, StartCommand;
  }

  /** A wallet ready to send its coin to this published request, on a chain that allows it. */
  predicate ReadyToSend(sys: System, i: nat, w: WalletState, request: TransferRequest, funding: ObservedFunding) {
    && At(sys, i, w, Idle) && NodeOf(sys, i).durable.exit.None?
    && w.coin.Some? && CoinLive(sys.world, w) && request in sys.world.requests
    && Begun(CfgOf(sys, i), w, request, LiveStatus(sys.world, w), funding).Ok?
  }

  lemma StartMove(
      sys: System, i: nat, w: WalletState, request: TransferRequest, funding: ObservedFunding)
      returns (moves: seq<Move>)
    requires Reachable(sys) && ReadyToSend(sys, i, w, request, funding)
    ensures Advanced(sys, After(sys, moves), i, w, Run(SignCmd(request), SignStatus))
  {
    hide StepNode, Apply, NativeValid, SessionSafe;
    var node, cmd, drawn := NodeOf(sys, i), SignCmd(request), Draw(sys.world.nextToken);
    ReachableIsSafe(sys, i);
    BeginNeedsGate(w, CfgOf(sys, i).network, request, LiveStatus(sys.world, w), funding, CfgOf(sys, i).minConfirmations,
                   CfgOf(sys, i).minReaction);
    StartsWhenIdle(CfgOf(sys, i), node, cmd, drawn);
    NotMovedYet(sys, i, w, Idle);
    AdvanceBy(sys, [], i, w, Idle, Start(cmd, drawn), node.(session := Run(cmd, SignStatus)), Silent);
    moves := [] + [WalletMove(i, Start(cmd, drawn))];
  }

  lemma StatusMove(
      sys: System, i: nat, w: WalletState, request: TransferRequest, before: seq<Move>)
      returns (moves: seq<Move>)
    requires w.coin.Some? && CoinLive(sys.world, w)
    requires Advanced(sys, After(sys, before), i, w, Run(SignCmd(request), SignStatus))
    ensures Advanced(sys, After(sys, moves), i, w, Run(SignCmd(request), SignObserve(LiveStatus(sys.world, w))))
  {
    hide StepNode, Known, Next;
    var a, cmd, status := After(sys, before), SignCmd(request), LiveStatus(sys.world, w);
    var event := GotStatus(status, Draw(a.world.nextToken));
    KnownWallet(a, i, w, Run(cmd, SignStatus));
    StatusIsHonest(a.world, i, w, NodeOf(a, i));
    TakesStatus(CfgOf(a, i), NodeOf(a, i), request, status, Draw(a.world.nextToken));
    AdvanceBy(sys, before, i, w, Run(cmd, SignStatus), event, NodeOf(a, i).(session := Run(cmd, SignObserve(status))),
              Silent);
    moves := before + [WalletMove(i, event)];
  }

  lemma BeginMove(
      sys: System, i: nat, w: WalletState, request: TransferRequest, funding: ObservedFunding, before: seq<Move>)
      returns (moves: seq<Move>)
    requires ReadyToSend(sys, i, w, request, funding)
    requires Advanced(sys, After(sys, before), i, w, Run(SignCmd(request), SignObserve(LiveStatus(sys.world, w))))
    ensures Advanced(sys, After(sys, moves), i,
                     BegunState(CfgOf(sys, i), w, request, LiveStatus(sys.world, w), funding),
                     Run(SignCmd(request), SignRecheck))
  {
    hide StepNode, Apply, LiveStatus, BeginTransfer, Next, Reachable;
    var a, cmd, status := After(sys, before), SignCmd(request), LiveStatus(sys.world, w);
    var op := WalletOp(Begin(request, status, funding));
    CfgsStay(sys, before);
    var vol := NodeOf(a, i).durable.(wallet := BegunState(CfgOf(sys, i), w, request, status, funding));
    AppliesBegin(CfgOf(a, i), NodeOf(a, i).durable, Begin(request, status, funding),
                 Begun(CfgOf(sys, i), w, request, status, funding));
    BeginsTransfer(CfgOf(a, i), NodeOf(a, i), request, status, funding, vol);
    var event := Sees(funding);
    AdvanceBy(sys, before, i, w, Run(cmd, SignObserve(status)), event,
              NodeOf(a, i).(session := Dirty(cmd, SignRecheck, op, vol)), Silent);
    moves := SaveMove(sys, before + [WalletMove(i, event)], i, w, cmd, SignRecheck, op, vol, Run(cmd, SignRecheck));
  }

  lemma CrashMove(sys: System, i: nat, w: WalletState, s: Session, before: seq<Move>) returns (moves: seq<Move>)
    requires Advanced(sys, After(sys, before), i, w, s)
    ensures Advanced(sys, After(sys, moves), i, w, Idle)
  {
    hide Apply, StepSession, StartCommand, NativeValid, StepHand;
    var a := After(sys, before);
    AdvanceBy(sys, before, i, w, s, Crash, NodeOf(a, i).(session := Idle), Silent);
    moves := before + [WalletMove(i, Crash)];
  }

  lemma BegunIsPending(
      w: WalletState, network: NetworkId, request: TransferRequest, status: CoinStatus, observed: ObservedFunding,
      minConfirmations: u32, minReaction: u32)
    requires BeginTransfer(w, network, request, status, observed, minConfirmations, minReaction).Ok?
    ensures w.coin.Some?
    ensures var begun := BeginTransfer(w, network, request, status, observed, minConfirmations, minReaction).value.0;
            begun.coin == w.coin && Resumes(SignCmd(request), begun) && Preparing(begun)
  {
    BeginNeedsGate(w, network, request, status, observed, minConfirmations, minReaction);
    GateDecidesBegin(w, network, request, status, observed, minConfirmations, minReaction);
    BegunIs(w, network, request, status, observed, minConfirmations, minReaction);
  }

  lemma BegunMayProceed(
      sys: System, i: nat, w: WalletState, request: TransferRequest, funding: ObservedFunding, begun: WalletState)
    requires Reachable(sys) && At(sys, i, w, Idle) && w.coin.Some? && CoinLive(sys.world, w)
    requires BeginTransfer(w, CfgOf(sys, i).network, request, LiveStatus(sys.world, w), funding,
                           CfgOf(sys, i).minConfirmations,
                           CfgOf(sys, i).minReaction).Ok?
    requires begun == BeginTransfer(w, CfgOf(sys, i).network, request, LiveStatus(sys.world, w), funding,
                                    CfgOf(sys, i).minConfirmations,
                                    CfgOf(sys, i).minReaction).value.0
    ensures Resumes(SignCmd(request), begun) && begun.coin == w.coin && Preparing(begun)
    ensures MayProceed(CfgOf(sys, i), sys.world, NodeOf(sys, i).durable.(wallet := begun), SignCmd(request),
                       View(funding, []))
  {
    hide *;
    KnownWallet(sys, i, w, Idle);
    BegunMayProceedKnown(CfgOf(sys, i), sys.world, NodeOf(sys, i).durable, i, w, request, funding, begun);
  }

  lemma BegunMayProceedKnown(
      cfg: Config, world: World, native: Native, i: nat, w: WalletState, request: TransferRequest,
      funding: ObservedFunding, begun: WalletState)
    requires Known(world, i, w) && CoinLive(world, w)
    requires BeginTransfer(w, cfg.network, request, LiveStatus(world, w), funding, cfg.minConfirmations,
                           cfg.minReaction).Ok?
    requires begun == BeginTransfer(w, cfg.network, request, LiveStatus(world, w), funding, cfg.minConfirmations,
                                    cfg.minReaction).value.0
    ensures Resumes(SignCmd(request), begun) && begun.coin == w.coin && Preparing(begun)
    ensures MayProceed(cfg, world, native.(wallet := begun), SignCmd(request), View(funding, []))
  {
    hide Known, BeginTransfer, ValidatePendingTransfer, FundingIntact;
    KnownLogIsShort(world, i, w);
    CountBelowMax(world, i, w);
    BegunRevalidates(w, cfg.network, request, LiveStatus(world, w), funding, cfg.minConfirmations, cfg.minReaction);
    BegunIsPending(w, cfg.network, request, LiveStatus(world, w), funding, cfg.minConfirmations, cfg.minReaction);
  }

  lemma CountBelowMax(world: World, i: nat, w: WalletState)
    requires Known(world, i, w) && CoinLive(world, w)
    ensures LiveStatus(world, w).count < U64_MAX
    ensures CoinOf(w).metadata.Some? ==> MetadataOf(w).keys == CoinOf(w).keys
  {
    KnownLogIsShort(world, i, w);
  }

  /** `w'` is `w` with its coin sent to `request`, one recovery further. */
  predicate SentTo(w: WalletState, w': WalletState, request: TransferRequest) {
    && w.coin.Some? && w'.coin.Some? && CoinOf(w').keys == CoinOf(w).keys && w'.pending.None?
    && CoinOf(w').metadata == CoinOf(w).metadata
    && CoinOf(w').outgoing.Some? && OutgoingOf(w').request == request
    && |OutgoingOf(w').envelope.ciphertext.payload.history| == |CoinOf(w).history| + 1
  }

  /** The attempt is journaled, then the process crashes. */
  lemma BeginAndCrash(sys: System, i: nat, w: WalletState, request: TransferRequest, funding: ObservedFunding)
      returns (moves: seq<Move>, begun: WalletState)
    requires Reachable(sys) && ReadyToSend(sys, i, w, request, funding)
    ensures Advanced(sys, After(sys, moves), i, begun, Idle) && After(sys, moves).cfgs == sys.cfgs
    ensures Resumes(SignCmd(request), begun) && begun.coin == w.coin && Preparing(begun)
    ensures MayProceed(CfgOf(sys, i), sys.world, NodeOf(sys, i).durable.(wallet := begun), SignCmd(request),
                       View(funding, []))
  {
    hide Next, MayProceed, BeginTransfer, Resumes;
    begun := BegunState(CfgOf(sys, i), w, request, LiveStatus(sys.world, w), funding);
    BegunMayProceed(sys, i, w, request, funding, begun);
    var started := StartMove(sys, i, w, request, funding);
    var asked := StatusMove(sys, i, w, request, started);
    var saved := BeginMove(sys, i, w, request, funding, asked);
    moves := CrashMove(sys, i, begun, Run(SignCmd(request), SignRecheck), saved);
    CfgsStay(sys, moves);
  }

  /**
   Whatever `begin_transfer` accepts can be carried through, crash included:
   there is a run to a state in which the coin is sent to exactly that request.
   */
  lemma TransferRunsThrough(sys: System, i: nat, w: WalletState, request: TransferRequest, funding: ObservedFunding)
      returns (moves: seq<Move>, w': WalletState)
    requires Reachable(sys) && ReadyToSend(sys, i, w, request, funding)
    ensures var done := After(sys, moves);
            && Reachable(done) && At(done, i, w', Run(SignCmd(request), SignRelease))
            && SentTo(w, w', request)
            && OnlyMoved(sys, done, i) && CoinLive(done.world, w)
            && |CoinLogOf(done.world, w).entries| == |CoinOf(w).history| + 1
  {
    hide Next, Begun, ValidatePendingTransfer, FundingIntact, Reachable;
    var crashed, begun := BeginAndCrash(sys, i, w, request, funding);
    var rest: seq<Move>;
    rest, w' := RerunApplies(After(sys, crashed), i, begun, SignCmd(request), View(funding, []));
    AfterConcat(sys, crashed, rest);
    OnlyMovedTwice(sys, After(sys, crashed), After(sys, crashed + rest), i);
    moves := crashed + rest;
  }

  // ---------------------------------------------------------------------------
  // Reusing a request.

  /** The last signature of a coin that was just sent names the receiver's capability. */
  lemma SentNamesReceiver(world: World, i: nat, w: WalletState)
    requires Known(world, i, w) && CoinOf(w).outgoing.Some?
    requires |CoinLogOf(world, w).entries| == |OutgoingOf(w).envelope.ciphertext.payload.history|
    ensures TakenId(world, CoinOf(w).keys.coinId)
    ensures LiveCap(world, CoinOf(w).keys.coinId) == OutgoingOf(w).request.nextCapHash.cap
  {
  }

  /** The new entry spends the sender's capability, which a request it accepts never names. */
  lemma OnlySenderSpends(a: World, b: World, i: nat, w: WalletState, j: nat, w': WalletState, cap: Token)
    requires Known(a, i, w) && Active(w) && Known(b, j, w') && Key(CoinOf(w')) == Key(CoinOf(w)) && LogsGrow(a, b)
    requires |CoinLogOf(b, w).entries| == |CoinOf(w).history| + 1 && cap != CapOf(w)
    requires |CoinLogOf(a, w).entries| == |CoinOf(w).history|
    ensures UsedCap(CoinLogOf(b, w), cap) <==> UsedCap(CoinLogOf(a, w), cap)
  {
    hide PendingOk, GoodLog, Gone, Recoveries;
    var before, after, n := CoinLogOf(a, w), CoinLogOf(b, w), |CoinOf(w).history|;
    assert Extends(a.logs[Key(CoinOf(w))], b.logs[Key(CoinOf(w))]);
    assert EntryAuthorized(Key(CoinOf(w)), after, n);
    assert AuthAt(after, n) == AuthAt(before, n);
    if UsedCap(before, cap) {
      UsedCapGrows(before, after, cap);
    }
  }

  lemma BeginNamesAnother(
      w: WalletState, network: NetworkId, request: TransferRequest, status: CoinStatus, observed: ObservedFunding,
      minConfirmations: u32, minReaction: u32)
    requires BeginTransfer(w, network, request, status, observed, minConfirmations, minReaction).Ok?
    ensures Active(w) && w.pending.None? && request.nextCapHash != CapHash(CapOf(w))
  {
    BeginNeedsGate(w, network, request, status, observed, minConfirmations, minReaction);
    GateDecidesBegin(w, network, request, status, observed, minConfirmations, minReaction);
    TransferAttemptShape(CoinOf(w), MetadataOf(w), request, status, observed.confirmations, minReaction);
  }

  /**
   Where "exactly one live owner" fails, and exactly when: sending to any
   request that `begin_transfer` accepts runs through, and afterwards some
   wallet can move the coin if and only if the request's capability was not
   spent before; that is, if and only if no recovery in the sender's own history
   already pays the request's withdrawal key. A spent one is accepted like any
   other (Handover.BeginIgnoresReuse) and leaves the coin with nobody.
   */
  lemma ReuseStrandsCoin(sys: System, i: nat, w: WalletState, request: TransferRequest, funding: ObservedFunding)
      returns (moves: seq<Move>)
    requires Reachable(sys) && ReadyToSend(sys, i, w, request, funding)
    ensures var done, id := After(sys, moves), CoinOf(w).keys.coinId;
            && Reachable(done) && TakenId(done.world, id)
            && LiveCap(done.world, id) == request.nextCapHash.cap
            && (Held(done, id, LiveCap(done.world, id)) <==> !Pays(CoinOf(w).history, request.withdrawal))
            && (Held(done, id, LiveCap(done.world, id)) <==> !UsedCap(CoinLogOf(sys.world, w), request.nextCapHash.cap))
  {
    hide Next, BeginTransfer, Reachable, Pays;
    var w': WalletState;
    moves, w' := TransferRunsThrough(sys, i, w, request, funding);
    LogsOnlyGrow(sys, moves);
    BeginNamesAnother(w, CfgOf(sys, i).network, request, LiveStatus(sys.world, w), funding,
                      CfgOf(sys, i).minConfirmations,
                      CfgOf(sys, i).minReaction);
    HeldAfter(sys, After(sys, moves), i, w, w', request);
    ReuseIsVisible(sys, i, w, request);
  }

  lemma HeldAfter(sys: System, done: System, i: nat, w: WalletState, w': WalletState, request: TransferRequest)
    requires Reachable(sys) && IsWallet(sys, i, w) && Active(w) && w.pending.None?
    requires Reachable(done) && LogsGrow(sys.world, done.world) && SentTo(w, w', request) && IsWallet(done, i, w')
    requires request.nextCapHash != CapHash(CapOf(w))
    requires |CoinLogOf(done.world, w).entries| == |CoinOf(w).history| + 1
    ensures var id := CoinOf(w).keys.coinId;
            && TakenId(done.world, id)
            && LiveCap(done.world, id) == request.nextCapHash.cap
            && (Held(done, id, LiveCap(done.world, id)) <==> !UsedCap(CoinLogOf(sys.world, w), request.nextCapHash.cap))
  {
    hide Reachable;
    WalletKnown(sys, i, w);
    WalletKnown(done, i, w');
    OnlySenderSpends(sys.world, done.world, i, w, i, w', request.nextCapHash.cap);
    SentNamesReceiver(done.world, i, w');
    OneLiveOwner(done, CoinOf(w).keys.coinId);
  }
}
