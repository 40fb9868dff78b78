/** How a coin begins, as runs of the joint system: registered with the signer, then funded from a deposit. */
module Opening {
  import opened Wrappers
  import opened Bitcoin
  import opened Enclave
  import opened Client
  import opened Transfer
  import opened Validation
  import opened Funding
  import opened Wallet
  import opened Driver
  import opened DriverSafety
  import opened Updates
  import opened Ledger
  import opened Protocol
  import opened Agreement
  import opened AgreementUpdates
  import opened AgreementSteps
  import opened JointFacts
  import opened Handover
  import opened Resume
  import opened JointTheorems
  import opened Progress
  import opened Sending
  import opened Lifecycle

  // ---------------------------------------------------------------------------
  // Registration.

  function RegistrationOf(drawn: Drawn): RegisterRequest {
    RegisterRequest(drawn.c, CapHash(drawn.b))
  }

  function Registering(drawn: Drawn): WalletState {
    WalletState(None, None,
                Some(PendingRegistration(drawn.a, drawn.b, Registration(RegistrationOf(drawn), Point(drawn.a)))))
  }

  function RegisteredWallet(drawn: Drawn, key: Token): WalletState {
    WalletState(Some(WalletCoin(drawn.a, CoinKeys(drawn.c, Point(drawn.a), Point(key)), None, None, Some(drawn.b),
                                Some(INITIAL_HANDOFF), None, None, None, None, [], None)), None, None)
  }

  function NewCoin(drawn: Drawn, key: Token): Coin {
    Coin(key, Authorization(drawn.c, CapHash(drawn.b), INITIAL_HANDOFF), 0, None)
  }

  lemma StartsRegistering(cfg: Config, node: Node, drawn: Drawn)
    requires node.session.Idle? && NativeValid(cfg, node.durable) && node.durable.wallet == EMPTY
    ensures StepNode(cfg, node, Start(RegisterCmd, drawn))
         == Some((node.(session := Dirty(RegisterCmd, RegSend, WalletOp(BeginRegister(drawn.a, drawn.b, drawn.c)),
                                         node.durable.(wallet := Registering(drawn)))), Silent))
  {
    hide StepNode;
    StartsWhenIdle(cfg, node, RegisterCmd, drawn);
  }

  lemma TakesRegistration(cfg: Config, node: Node, drawn: Drawn, key: Token)
    requires node.session == Run(RegisterCmd, RegWait) && node.durable.wallet == Registering(drawn) && key != drawn.a
    ensures var status := NewCoin(drawn, key).Status(drawn.c);
            StepNode(cfg, node, GotRegistered(status))
            == Some((node.(session := Dirty(RegisterCmd, Done, WalletOp(FinishRegister(status)),
                                            node.durable.(wallet := RegisteredWallet(drawn, key)))), Silent))
  {
  }

  lemma RegisterMoves(sys: System, i: nat, drawn: Drawn)
    requires Reachable(sys) && i < |sys.nodes| && RegistrationOf(drawn) in sys.world.sentRegs
    requires drawn.c !in sys.world.coins && |sys.world.coins| < sys.world.limit
    ensures var next, coin := Next(sys, DeliverRegister(RegistrationOf(drawn))), NewCoin(drawn, sys.world.nextToken);
            && Reachable(next) && next.nodes == sys.nodes && OnlyMoved(sys, next, i)
            && next.world.coins == sys.world.coins[drawn.c := coin]
            && coin.Status(drawn.c) in next.world.regReplies
  {
    hide StepNode, SignWorld, Reachable;
    NextIsReachable(sys, DeliverRegister(RegistrationOf(drawn)));
  }

  lemma RegistrationSent(sys: System, i: nat) returns (moves: seq<Move>)
    requires Reachable(sys) && At(sys, i, EMPTY, Idle)
    ensures var drawn := Draw(sys.world.nextToken);
            && Advanced(sys, After(sys, moves), i, Registering(drawn), Run(RegisterCmd, RegWait))
            && RegistrationOf(drawn) in After(sys, moves).world.sentRegs
            && After(sys, moves).world.nextToken > sys.world.nextToken
  {
    hide Apply, StepSession, StartCommand, NativeValid, StepHand, Next, StepSave;
    var drawn := Draw(sys.world.nextToken);
    var saved := RegistrationSaved(sys, i);
    var a := After(sys, saved);
    AdvanceBy(sys, saved, i, Registering(drawn), Run(RegisterCmd, RegSend), Send,
              NodeOf(a, i).(session := Run(RegisterCmd, RegWait)),
              SentRegister(RegistrationOf(drawn)));
    moves := saved + [WalletMove(i, Send)];
  }

  lemma RegistrationSaved(sys: System, i: nat) returns (moves: seq<Move>)
    requires Reachable(sys) && At(sys, i, EMPTY, Idle)
    ensures Advanced(sys, After(sys, moves), i, Registering(Draw(sys.world.nextToken)), Run(RegisterCmd, RegSend))
  {
    hide StepNode, AfterSave, NativeValid, Next, Advanced, Reachable;
    var node, drawn := NodeOf(sys, i), Draw(sys.world.nextToken);
    var vol, op := node.durable.(wallet := Registering(drawn)), WalletOp(BeginRegister(drawn.a, drawn.b, drawn.c));
    ReachableValid(sys, i);
    StartsRegistering(CfgOf(sys, i), node, drawn);
    NotMovedYet(sys, i, EMPTY, Idle);
    AdvanceBy(sys, [], i, EMPTY, Idle, Start(RegisterCmd, drawn),
              node.(session := Dirty(RegisterCmd, RegSend, op, vol)),
              Silent);
    PlainAfterSave(CfgOf(sys, i), vol, RegisterCmd, RegSend);
    moves := SaveMove(sys, [] + [WalletMove(i, Start(RegisterCmd, drawn))], i, EMPTY, RegisterCmd, RegSend, op, vol,
                      Run(RegisterCmd, RegSend));
  }

  lemma RegistrationTaken(sys: System, i: nat, drawn: Drawn, key: Token) returns (moves: seq<Move>)
    requires Reachable(sys) && At(sys, i, Registering(drawn), Run(RegisterCmd, RegWait)) && key != drawn.a
    requires NewCoin(drawn, key).Status(drawn.c) in sys.world.regReplies
    ensures Advanced(sys, After(sys, moves), i, RegisteredWallet(drawn, key), Idle)
  {
    hide StepNode, AfterSave, Next;
    var node, status := NodeOf(sys, i), NewCoin(drawn, key).Status(drawn.c);
    var vol, op := node.durable.(wallet := RegisteredWallet(drawn, key)), WalletOp(FinishRegister(status));
    TakesRegistration(CfgOf(sys, i), node, drawn, key);
    NotMovedYet(sys, i, Registering(drawn), node.session);
    AdvanceBy(sys, [], i, Registering(drawn), node.session, GotRegistered(status), node.(session := Dirty(RegisterCmd,
      Done, op, vol)), Silent);
    IdleAfterDone(CfgOf(sys, i), vol, RegisterCmd);
    moves := SaveMove(sys, [] + [WalletMove(i, GotRegistered(status))], i, Registering(drawn), RegisterCmd, Done, op,
                      vol,
                      Idle);
  }

  /** A wallet that just registered a coin which the signer still knows, and the request it registered with. */
  predicate RegisteredAt(sys: System, i: nat, w: WalletState) {
    && At(sys, i, w, Idle) && w.coin.Some? && w.pending.None? && CoinLive(sys.world, w)
    && JustRegistered(CoinOf(w)) && CoinOf(w).currentCap.Some?
    && RegisterRequest(CoinOf(w).keys.coinId, CapHash(CapOf(w))) in sys.world.sentRegs
  }

  /** A new wallet registers a coin with a signer that has room for it. */
  lemma RegisterRuns(sys: System, i: nat) returns (moves: seq<Move>, w: WalletState)
    requires Reachable(sys) && At(sys, i, EMPTY, Idle)
    requires Draw(sys.world.nextToken).c !in sys.world.coins && |sys.world.coins| < sys.world.limit
    ensures var done := After(sys, moves);
            Reachable(done) && RegisteredAt(done, i, w) && OnlyMoved(sys, done, i)
  {
    hide Next;
    var drawn := Draw(sys.world.nextToken);
    var sent := RegistrationSent(sys, i);
    var a := After(sys, sent);
    RegisterMoves(a, i, drawn);
    var key, move := a.world.nextToken, DeliverRegister(RegistrationOf(drawn));
    AfterAppend(sys, sent, move);
    OnlyMovedTwice(sys, a, Next(a, move), i);
    moves := RegistrationEnds(sys, i, sent + [move], drawn, key);
    w := RegisteredWallet(drawn, key);
  }

  lemma RegistrationEnds(sys: System, i: nat, before: seq<Move>, drawn: Drawn, key: Token) returns (moves: seq<Move>)
    requires var b := After(sys, before);
             && Reachable(b) && At(b, i, Registering(drawn), Run(RegisterCmd, RegWait)) && OnlyMoved(sys, b, i)
             && key != drawn.a
             && drawn.c in b.world.coins && b.world.coins[drawn.c] == NewCoin(drawn, key)
             && NewCoin(drawn, key).Status(drawn.c) in b.world.regReplies && RegistrationOf(drawn) in b.world.sentRegs
    ensures var done := After(sys, moves);
            Reachable(done) && RegisteredAt(done, i, RegisteredWallet(drawn, key)) && OnlyMoved(sys, done, i)
  {
    hide Next, Reachable;
    var b := After(sys, before);
    var taking := RegistrationTaken(b, i, drawn, key);
    AfterConcat(sys, before, taking);
    moves := before + taking;
    OnlyMovedTwice(sys, b, After(b, taking), i);
  }

  // ---------------------------------------------------------------------------
  // Funding from a deposit (explorer backend).

  /** The deposit pays for this policy, and its delay leaves the wallet's margin open. */
  predicate MayFund(cfg: Config, native: Native, p: FundPolicy, source: SourceUtxo) {
    && cfg.backend.Explorer? && native.wallet.coin.Some?
    && source.outpoint !in SweepSources(native)
    && 0 < p.delay <= U16_MAX && RequireReactionMargin(0, p.delay, cfg.minReaction).Ok?
    && BuildSourceFunding(CoinOf(native.wallet).keys, native.fundingSecret, source, p.amount, p.feeRate, p.maxFee).Ok?
  }

  /** `w'` is `w` with this built funding and its recovery attempt journaled. */
  predicate Journaled(
      cfg: Config, w: WalletState, w': WalletState, p: FundPolicy, built: PreparedSourceFunding, drawn: Drawn) {
    && w.coin.Some? && Attempting(w')
    && var m := CoinMetadata(CoinOf(w).keys, cfg.network, built.outpoint, p.amount);
       && w' == w.(coin := Some(CoinOf(w).(metadata := Some(m),
                     funding := Some(FundingJournal(built.tx, p.delay, p.feeRate, p.maxFee, built.fee,
                                                    FundingPrepared)))),
                   pending := w'.pending)
       && PurposeOf(w') == Fund(drawn.a, drawn.b) && Preparing(w')
       && AttemptOf(w').delay == p.delay
  }

  lemma BuiltIsFundable(keys: CoinKeys, secret: Token, source: SourceUtxo, p: FundPolicy, withdrawal: PubKey)
    requires BuildSourceFunding(keys, secret, source, p.amount, p.feeRate, p.maxFee).Ok? && 0 < p.delay <= U16_MAX
    ensures var built := BuildSourceFunding(keys, secret, source, p.amount, p.feeRate, p.maxFee).value;
            && CanonicalRecovery(built.outpoint, p.amount, withdrawal, p.delay).Ok?
            && built.tx.inputs != [] && built.tx.inputs[0].prevout == source.outpoint && built.fee <= p.maxFee
            && !source.coinbase
  {
  }

  lemma FundAttemptFrom(
      metadata: CoinMetadata, status: CoinStatus, coin: WalletCoin, delay: u32, nextCap: Token, secret: Token)
    requires coin.currentCap.Some? && coin.currentHandoff.Some? && metadata.keys == coin.keys && delay > 0
    requires VerifyStatus(coin.keys, status).Ok? && coin.keys.client == Point(coin.clientSecret)
    requires status.authorization
             == Authorization(coin.keys.coinId, CapHash(coin.currentCap.value), coin.currentHandoff.value)
    requires nextCap != coin.currentCap.value
    requires CanonicalRecovery(metadata.outpoint, metadata.amount, Point(secret), delay).Ok?
    ensures FundAttempt(metadata, status, coin, delay, nextCap, secret).Ok?
    ensures var pending := FundAttempt(metadata, status, coin, delay, nextCap, secret).value;
            && pending.PendingRecovery? && pending.purpose == Fund(nextCap, secret) && pending.stage.Prepared?
            && pending.stage.attempt.delay == delay
  {
  }

  lemma BeginFundSucceeds(
      cfg: Config, native: Native, source: SourceUtxo, status: CoinStatus, p: FundPolicy, drawn: Drawn)
    requires MayFund(cfg, native, p, source) && ReplayBindingComplete(native.wallet) && native.wallet.pending.None?
    requires var coin := CoinOf(native.wallet);
             && JustRegistered(coin) && coin.currentCap.Some?
             && VerifyStatus(coin.keys, status).Ok? && coin.keys.client == Point(coin.clientSecret) && status.count == 0
             && status.authorization == Authorization(coin.keys.coinId, CapHash(coin.currentCap.value), INITIAL_HANDOFF)
             && drawn.a != coin.currentCap.value
    ensures var r := BeginFunding(native.wallet, cfg.network, native.fundingSecret, source, status, p.amount, p.delay,
                                  p.feeRate,
                                  p.maxFee, cfg.minReaction, drawn.a, drawn.b);
            var built := Built(native, p, source);
            r.Ok? && Journaled(cfg, native.wallet, r.value.0, p, built, drawn)
  {
    var coin := CoinOf(native.wallet);
    var built := BuildSourceFunding(coin.keys, native.fundingSecret, source, p.amount, p.feeRate, p.maxFee).value;
    BuiltIsFundable(coin.keys, native.fundingSecret, source, p, Point(drawn.b));
    var m := CoinMetadata(coin.keys, cfg.network, built.outpoint, p.amount);
    FundAttemptFrom(m, status, coin, p.delay, drawn.a, drawn.b);
  }

  lemma StartsFunding(cfg: Config, node: Node, p: FundPolicy, drawn: Drawn)
    requires node.session.Idle? && NativeValid(cfg, node.durable) && cfg.backend.Explorer?
    requires var w := node.durable.wallet; w.coin.Some? && CoinOf(w).funding.None? && w.pending.None?
    requires 0 < p.delay <= U16_MAX
    ensures StepNode(cfg, node, Start(FundCmd(p), drawn))
            == Some((node.(session := Run(FundCmd(p), FundStatus)), Silent))
  {
    hide Apply, StepNode, NativeValid, StartExit, StartAccept;
    StartsWhenIdle(cfg, node, FundCmd(p), drawn);
  }

  lemma TakesFundStatus(cfg: Config, node: Node, p: FundPolicy, status: CoinStatus, drawn: Drawn)
    requires node.session == Run(FundCmd(p), FundStatus) && node.durable.wallet.coin.Some? && cfg.backend.Explorer?
    ensures StepNode(cfg, node, GotStatus(status, drawn))
            == Some((node.(session := Run(FundCmd(p), FundSource(status))),
                                                                   Silent))
  {
    hide Apply, StartCommand;
  }

  function FundOp(source: SourceUtxo, status: CoinStatus, p: FundPolicy, drawn: Drawn): Update {
    WalletOp(BeginFund(source, status, p, drawn.a, drawn.b))
  }

  lemma PicksSource(
      cfg: Config, node: Node, p: FundPolicy, status: CoinStatus, source: SourceUtxo, drawn: Drawn, vol: Native)
    requires node.session == Run(FundCmd(p), FundSource(status)) && node.durable.wallet.coin.Some?
             && cfg.backend.Explorer?
    requires !source.coinbase && source.outpoint !in SweepSources(node.durable)
    requires Apply(cfg, node.durable, FundOp(source, status, p, drawn)) == Ok(vol)
    ensures StepNode(cfg, node, Listed([source], source, drawn))
         == Some((node.(session := Dirty(FundCmd(p), FundRouted, FundOp(source, status, p, drawn), vol)), Silent))
  {
    hide Apply, StartCommand;
    assert BestSource(cfg, node.durable, [source], source);
    assert StepFund(cfg, node.durable, p, FundSource(status), Listed([source], source, drawn))
        == Some(Dirty(FundCmd(p), FundRouted, FundOp(source, status, p, drawn), vol));
  }

  lemma RoutesToSigning(
      cfg: Config, vol: Native, w: WalletState, p: FundPolicy, built: PreparedSourceFunding, drawn: Drawn)
    requires Journaled(cfg, w, vol.wallet, p, built, drawn) && built.fee <= p.maxFee
    ensures AfterSave(cfg, vol, FundCmd(p), FundRouted) == Run(FundCmd(p), FinStatus)
    ensures 0 < p.delay <= U16_MAX ==> Resumes(FundCmd(p), vol.wallet)
  {
    hide Updating;
  }

  function Built(native: Native, p: FundPolicy, source: SourceUtxo): PreparedSourceFunding {
    var r := BuildSourceFunding(CoinOf(native.wallet).keys, native.fundingSecret, source, p.amount, p.feeRate,
                                p.maxFee);
    if r.Ok? then r.value else PreparedSourceFunding(BLANK_TX, OutPoint(ZeroTxid, 0), 0)
  }

  lemma FundAsks(sys: System, i: nat, w: WalletState, p: FundPolicy, source: SourceUtxo) returns (moves: seq<Move>)
    requires Reachable(sys) && RegisteredAt(sys, i, w) && MayFund(CfgOf(sys, i), NodeOf(sys, i).durable, p, source)
    ensures Advanced(sys, After(sys, moves), i, w, Run(FundCmd(p), FundSource(LiveStatus(sys.world, w))))
  {
    hide StepNode, NativeValid, Next, BuildSourceFunding, Reachable;
    var node, cfg, drawn, status := NodeOf(sys, i), CfgOf(sys, i), Draw(sys.world.nextToken), LiveStatus(sys.world, w);
    ReachableValid(sys, i);
    StartsFunding(cfg, node, p, drawn);
    NotMovedYet(sys, i, w, Idle);
    AdvanceBy(sys, [], i, w, Idle, Start(FundCmd(p), drawn), node.(session := Run(FundCmd(p), FundStatus)), Silent);
    moves := FundStatusMove(sys, i, w, p, [] + [WalletMove(i, Start(FundCmd(p), drawn))]);
  }

  lemma FundStatusMove(sys: System, i: nat, w: WalletState, p: FundPolicy, before: seq<Move>) returns (moves: seq<Move>)
    requires w.coin.Some? && CoinLive(sys.world, w) && i < |sys.cfgs| && CfgOf(sys, i).backend.Explorer?
    requires Advanced(sys, After(sys, before), i, w, Run(FundCmd(p), FundStatus))
    ensures Advanced(sys, After(sys, moves), i, w, Run(FundCmd(p), FundSource(LiveStatus(sys.world, w))))
  {
    hide StepNode, Known, Next;
    var a, status := After(sys, before), LiveStatus(sys.world, w);
    var event := GotStatus(status, Draw(a.world.nextToken));
    KnownWallet(a, i, w, Run(FundCmd(p), FundStatus));
    StatusIsHonest(a.world, i, w, NodeOf(a, i));
    TakesFundStatus(CfgOf(a, i), NodeOf(a, i), p, status, Draw(a.world.nextToken));
    AdvanceBy(sys, before, i, w, Run(FundCmd(p), FundStatus), event,
              NodeOf(a, i).(session := Run(FundCmd(p), FundSource(status))), Silent);
    moves := before + [WalletMove(i, event)];
  }

  lemma FundingJournals(
      sys: System, i: nat, w: WalletState, p: FundPolicy, source: SourceUtxo, drawn: Drawn)
      returns (vol: Native)
    requires Reachable(sys) && IsWallet(sys, i, w) && w.coin.Some? && w.pending.None? && CoinLive(sys.world, w)
    requires JustRegistered(CoinOf(w)) && CoinOf(w).currentCap.Some?
    requires MayFund(CfgOf(sys, i), NodeOf(sys, i).durable, p, source) && drawn == Draw(sys.world.nextToken)
    ensures Apply(CfgOf(sys, i), NodeOf(sys, i).durable, FundOp(source, LiveStatus(sys.world, w), p, drawn)) == Ok(vol)
    ensures vol == NodeOf(sys, i).durable.(wallet := vol.wallet)
            && Journaled(CfgOf(sys, i), w, vol.wallet, p, Built(NodeOf(sys, i).durable, p, source), drawn)
  {
    hide Reachable, AcceptTransfer, BeginTransfer;
    var native, cfg, status := NodeOf(sys, i).durable, CfgOf(sys, i), LiveStatus(sys.world, w);
    KnownWallet(sys, i, w, NodeOf(sys, i).session);
    SafeWallet(sys, i, w, NodeOf(sys, i).session);
    ReachableDraws(sys);
    BeginFundSucceeds(cfg, native, source, status, p, drawn);
    vol := native.(wallet := BeginFunding(w, cfg.network, native.fundingSecret, source, status, p.amount, p.delay,
                                          p.feeRate, p.maxFee,
                                          cfg.minReaction, drawn.a, drawn.b).value.0);
  }

  /** The funding and its recovery attempt are journaled, and the command goes on to sign. */
  lemma JournalRuns(
      sys: System, i: nat, w: WalletState, p: FundPolicy, source: SourceUtxo)
      returns (moves: seq<Move>, w': WalletState, drawn: Drawn)
    requires Reachable(sys) && RegisteredAt(sys, i, w) && MayFund(CfgOf(sys, i), NodeOf(sys, i).durable, p, source)
    ensures Advanced(sys, After(sys, moves), i, w', Run(FundCmd(p), FinStatus)) && Resumes(FundCmd(p), w')
    ensures Journaled(CfgOf(sys, i), w, w', p, Built(NodeOf(sys, i).durable, p, source), drawn)
  {
    hide *;
    var asked := FundAsks(sys, i, w, p, source);
    moves, w', drawn := JournalMoves(sys, i, w, p, source, asked);
  }

  lemma JournalMoves(sys: System, i: nat, w: WalletState, p: FundPolicy, source: SourceUtxo, before: seq<Move>)
      returns (moves: seq<Move>, w': WalletState, drawn: Drawn)
    requires RegisteredAt(sys, i, w) && MayFund(CfgOf(sys, i), NodeOf(sys, i).durable, p, source)
    requires Advanced(sys, After(sys, before), i, w, Run(FundCmd(p), FundSource(LiveStatus(sys.world, w))))
    ensures Advanced(sys, After(sys, moves), i, w', Run(FundCmd(p), FinStatus)) && Resumes(FundCmd(p), w')
    ensures Journaled(CfgOf(sys, i), w, w', p, Built(NodeOf(sys, i).durable, p, source), drawn)
  {
    hide StepNode, Apply, Journaled, Next, BuildSourceFunding, Reachable;
    var a, cmd, status := After(sys, before), FundCmd(p), LiveStatus(sys.world, w);
    drawn := Draw(a.world.nextToken);
    BuiltIsFundable(CoinOf(w).keys, NodeOf(sys, i).durable.fundingSecret, source, p, Point(0));
    var vol := FundingJournals(a, i, w, p, source, drawn);
    PicksSource(CfgOf(a, i), NodeOf(a, i), p, status, source, drawn, vol);
    var event, op := Listed([source], source, drawn), FundOp(source, status, p, drawn);
    AdvanceBy(sys, before, i, w, Run(cmd, FundSource(status)), event,
              NodeOf(a, i).(session := Dirty(cmd, FundRouted, op, vol)), Silent);
    w' := vol.wallet;
    RoutesToSigning(CfgOf(sys, i), vol, w, p, Built(NodeOf(sys, i).durable, p, source), drawn);
    moves := SaveMove(sys, before + [WalletMove(i, event)], i, w, cmd, FundRouted, op, vol, Run(cmd, FinStatus));
  }

  // ---------------------------------------------------------------------------
  // The recovery is signed and saved, then the funding is handed out.

  lemma JournaledIsIntact(
      cfg: Config, w: WalletState, native: Native, p: FundPolicy, source: SourceUtxo, drawn: Drawn, before: Native)
    requires MayFund(cfg, before, p, source) && before.wallet == w && native.fundingSecret == before.fundingSecret
    requires Journaled(cfg, w, native.wallet, p, Built(before, p, source), drawn)
    ensures FundingIntact(cfg, native, [source])
  {
    BuiltIsFundable(CoinOf(w).keys, before.fundingSecret, source, p, Point(0));
    assert RebuildsFunding(native, CoinOf(native.wallet), source) && source in [source];
  }

  /** A secured funding is handed out: its recovery verifies and its transaction is final. */
  lemma SecuredIsHandedOut(world: World, i: nat, w: WalletState)
    requires Known(world, i, w) && Active(w) && CoinOf(w).metadata.Some? && CoinOf(w).funding.Some?
    requires |CoinOf(w).history| == 1 && w.pending.None?
    requires FundingOf(w).stage != FundingPrepared
             && CoinOf(w).history[0].delay == FundingOf(w).delay > 0
    requires ValidateFinalizedFunding(MetadataOf(w), FundingOf(w).tx).Ok?
    ensures FundingTransaction(w) == Ok(FundingOf(w).tx)
  {
    hide ValidateFinalizedFunding, LogOk;
    var m, log := MetadataOf(w), CoinLogOf(world, w);
    assert log.entries[..1] == log.entries && CoinOf(w).history == Recoveries(log.entries);
    LogVerifies(world, i, w, 0);
    VerifyRecoveriesIsExact(m, CoinOf(w).history);
  }

  function Broadcast(w: WalletState): WalletState {
    w.(coin := Some(CoinOf(w).(funding := Some(FundingOf(w).(stage := FundingBroadcast)))))
  }

  lemma AppliesBroadcast(cfg: Config, native: Native)
    requires FundingTransaction(native.wallet).Ok?
    ensures native.wallet.coin.Some? && CoinOf(native.wallet).funding.Some?
    ensures var tx := FundingOf(native.wallet).tx;
            && FundingTransaction(native.wallet) == Ok(tx)
            && Apply(cfg, native, WalletOp(MarkBroadcast(ComputeTxid(tx))))
               == Ok(native.(wallet := Broadcast(native.wallet)))
  {
    assert MarkFundingBroadcast(native.wallet,
                                ComputeTxid(FundingOf(native.wallet).tx)) == Ok(Broadcast(native.wallet));
  }

  lemma HandsFundingOut(cfg: Config, node: Node, p: FundPolicy, vol: Native)
    requires node.session == Run(FundCmd(p), FundHand)
    requires var w := node.durable.wallet;
             && w.coin.Some? && CoinOf(w).funding.Some? && FundingOf(w).stage == RecoverySecured
             && FundingTransaction(w) == Ok(FundingOf(w).tx)
             && Apply(cfg, node.durable, WalletOp(MarkBroadcast(ComputeTxid(FundingOf(w).tx)))) == Ok(vol)
    ensures var tx := FundingOf(node.durable.wallet).tx;
            StepNode(cfg, node, Hand)
            == Some((node.(session := Dirty(FundCmd(p), Done, WalletOp(MarkBroadcast(ComputeTxid(tx))), vol),
                           handedFunding := node.handedFunding + {tx}), Silent))
  {
    hide Apply, StepSession, StartCommand, NativeValid, FundingTransaction;
    var tx := FundingOf(node.durable.wallet).tx;
    var next := Updating(cfg, node.durable, FundCmd(p), WalletOp(MarkBroadcast(ComputeTxid(tx))), Done);
    assert StepHand(cfg, node) == Some(node.(session := next, handedFunding := node.handedFunding + {tx}));
  }

  lemma HandMoves(sys: System, i: nat, w: WalletState, p: FundPolicy) returns (moves: seq<Move>)
    requires Reachable(sys) && At(sys, i, w, Run(FundCmd(p), FundHand)) && FundingTransaction(w).Ok?
    requires w.coin.Some? && CoinOf(w).funding.Some? && FundingOf(w).stage == RecoverySecured
    ensures Advanced(sys, After(sys, moves), i, Broadcast(w), Idle)
  {
    hide StepNode, Apply, FundingTransaction, Next, AfterSave;
    var node, cmd, tx := NodeOf(sys, i), FundCmd(p), FundingOf(w).tx;
    var vol, op := node.durable.(wallet := Broadcast(w)), WalletOp(MarkBroadcast(ComputeTxid(tx)));
    AppliesBroadcast(CfgOf(sys, i), node.durable);
    HandsFundingOut(CfgOf(sys, i), node, p, vol);
    NotMovedYet(sys, i, w, node.session);
    AdvanceBy(sys, [], i, w, node.session, Hand,
              node.(session := Dirty(cmd, Done, op, vol), handedFunding := node.handedFunding + {tx}), Silent);
    IdleAfterDone(CfgOf(sys, i), vol, cmd);
    moves := SaveMove(sys, [] + [WalletMove(i, Hand)], i, w, cmd, Done, op, vol, Idle);
  }

  /** An owner's coin as `fund` leaves it. */
  predicate FundedBy(cfg: Config, w: WalletState, v: WalletState, p: FundPolicy) {
    && Ready(v) && w.coin.Some? && CoinOf(v).keys == CoinOf(w).keys && CoinOf(v).metadata.Some?
    && MetadataOf(v).network == cfg.network && MetadataOf(v).amount == p.amount
    && |CoinOf(v).history| == 1 && CoinOf(v).history[0].delay == p.delay
  }

  lemma SignJournaled(
      sys: System, a: System, i: nat, w: WalletState, w1: WalletState, p: FundPolicy, source: SourceUtxo, drawn: Drawn)
      returns (moves: seq<Move>, w2: WalletState)
    requires RegisteredAt(sys, i, w) && MayFund(CfgOf(sys, i), NodeOf(sys, i).durable, p, source)
             && Resumes(FundCmd(p), w1)
    requires Journaled(CfgOf(sys, i), w, w1, p, Built(NodeOf(sys, i).durable, p, source), drawn)
             && Advanced(sys, a, i, w1, Idle)
    ensures var b := After(a, moves);
            && Reachable(b) && At(b, i, w2, Run(FundCmd(p), FundHand)) && Applied(w1, w2) && OnlyMoved(a, b, i)
            && CoinLive(b.world, w)
  {
    hide Next, BuildSourceFunding, ValidatePendingTransfer, ValidateFinalizedFunding;
    JournaledIsIntact(CfgOf(sys, i), w, NodeOf(a, i).durable, p, source, drawn, NodeOf(sys, i).durable);
    moves, w2 := RerunApplies(a, i, w1, FundCmd(p), View(Shown(MetadataOf(w1), 0), [source]));
  }

  lemma AppliedIsSecured(
      world: World, i: nat, cfg: Config, before: Native, w: WalletState, w1: WalletState, w2: WalletState,
      p: FundPolicy,
      source: SourceUtxo, drawn: Drawn)
    requires MayFund(cfg, before, p, source) && before.wallet == w && CoinOf(w).keys.client != CoinOf(w).keys.enclave
    requires Journaled(cfg, w, w1, p, Built(before, p, source), drawn)
    requires Applied(w1, w2) && Known(world, i, w2)
    ensures FundingTransaction(w2).Ok? && CoinOf(w2).funding.Some? && FundingOf(w2).stage == RecoverySecured
    ensures FundedBy(cfg, w, Broadcast(w2), p)
  {
    hide Known, VerifyRecovery, BuildSourceFunding, ValidateFinalizedFunding, Vsize;
    SourceFundingIsExact(CoinOf(w).keys, cfg.network, before.fundingSecret, source, p.amount, p.feeRate, p.maxFee);
    SecuredIsHandedOut(world, i, w2);
  }

  /**
   Funding as a run: the wallet journals the transaction built from its
   deposit, crashes, signs the first recovery on the rerun, and only then
   hands the transaction out. It exists whenever the deposit pays for the
   policy, and it makes the wallet the coin's first owner.
   */
  lemma FundRuns(
      sys: System, i: nat, w: WalletState, p: FundPolicy, source: SourceUtxo)
      returns (moves: seq<Move>, v: WalletState)
    requires Reachable(sys) && RegisteredAt(sys, i, w) && NodeOf(sys, i).durable.exit.None?
    requires MayFund(CfgOf(sys, i), NodeOf(sys, i).durable, p, source)
    ensures var done := After(sys, moves);
            && Reachable(done) && OwnerAt(done, i, v) && FundedBy(CfgOf(sys, i), w, v, p) && OnlyMoved(sys, done, i)
  {
    hide Next, BuildSourceFunding, Reachable;
    var journaled, w1, drawn := JournalRuns(sys, i, w, p, source);
    var crashed := CrashMove(sys, i, w1, Run(FundCmd(p), FinStatus), journaled);
    var a := After(sys, crashed);
    var signing, w2 := SignJournaled(sys, a, i, w, w1, p, source, drawn);
    AfterConcat(sys, crashed, signing);
    OnlyMovedTwice(sys, a, After(a, signing), i);
    moves := FundEnds(sys, i, w, w1, w2, p, source, drawn, crashed + signing);
    v := Broadcast(w2);
  }

  lemma FundEnds(
      sys: System, i: nat, w: WalletState, w1: WalletState, w2: WalletState, p: FundPolicy, source: SourceUtxo,
      drawn: Drawn, before: seq<Move>)
      returns (moves: seq<Move>)
    requires Reachable(sys) && RegisteredAt(sys, i, w) && NodeOf(sys, i).durable.exit.None?
    requires MayFund(CfgOf(sys, i), NodeOf(sys, i).durable, p, source)
             && Journaled(CfgOf(sys, i), w, w1, p, Built(NodeOf(sys, i).durable, p, source), drawn)
    requires Applied(w1, w2)
    requires var b := After(sys, before);
             Reachable(b) && At(b, i, w2, Run(FundCmd(p), FundHand)) && OnlyMoved(sys, b, i) && CoinLive(b.world, w)
    ensures w2.coin.Some? && CoinOf(w2).funding.Some?
    ensures var done := After(sys, moves);
            && Reachable(done) && OwnerAt(done, i, Broadcast(w2)) && FundedBy(CfgOf(sys, i), w, Broadcast(w2), p)
            && OnlyMoved(sys, done, i)
  {
    hide Next;
    var b := After(sys, before);
    KnownWallet(sys, i, w, Idle);
    KnownWallet(b, i, w2, Run(FundCmd(p), FundHand));
    AppliedIsSecured(b.world, i, CfgOf(sys, i), NodeOf(sys, i).durable, w, w1, w2, p, source, drawn);
    var handing := HandMoves(b, i, w2, p);
    AfterConcat(sys, before, handing);
    moves := before + handing;
    OnlyMovedTwice(sys, b, After(b, handing), i);
  }
}
