/** A coin's life as runs of the joint system: registered, funded, handed from owner to owner. */
module Lifecycle {
  import opened Wrappers
  import opened Bitcoin
  import opened Enclave
  import opened Client
  import opened Transfer
  import opened Validation
  import opened Funding
  import opened Wallet
  import opened Driver
  import opened DriverSafety
  import opened Updates
  import opened Ledger
  import opened Protocol
  import opened Agreement
  import opened Growth
  import opened AgreementUpdates
  import opened AgreementSteps
  import opened JointFacts
  import opened Handover
  import opened Resume
  import opened JointTheorems
  import opened Progress
  import opened Sending

  // ---------------------------------------------------------------------------
  // One node, one event: requesting a transfer.

  function AskedRequest(cfg: Config, id: Token, outpoint: OutPoint, amount: u64, drawn: Drawn): TransferRequest {
    TransferRequest(drawn.a, id, cfg.network, outpoint, amount, Point(drawn.c), CapHash(drawn.b), Point(drawn.d),
                    AskedMargin(cfg))
  }

  function AskedMargin(cfg: Config): u32 {
    if cfg.minReaction >= DELAY_STEP then cfg.minReaction else DELAY_STEP
  }

  /** A wallet that saved this request and nothing else. */
  function Asking(cfg: Config, id: Token, outpoint: OutPoint, amount: u64, drawn: Drawn): WalletState {
    WalletState(None,
                Some(IncomingTransfer(AskedRequest(cfg, id, outpoint, amount, drawn), drawn.b, drawn.c, drawn.d)), None)
  }

  function AskOp(cfg: Config, id: Token, outpoint: OutPoint, amount: u64, drawn: Drawn): Update {
    WalletOp(Ask(id, outpoint, amount, AskedRequest(cfg, id, outpoint, amount, drawn).minReaction, drawn))
  }

  lemma StartsAsking(cfg: Config, node: Node, id: Token, outpoint: OutPoint, amount: u64, drawn: Drawn)
    requires node.session.Idle? && NativeValid(cfg, node.durable)
    requires node.durable.wallet == EMPTY && !outpoint.IsNull() && amount <= MAX_MONEY
    ensures var cmd := RequestCmd(id, outpoint, amount, DELAY_STEP);
            StepNode(cfg, node, Start(cmd, drawn))
            == Some((node.(session := Dirty(cmd, AskPublish, AskOp(cfg, id, outpoint, amount, drawn),
                                            node.durable.(wallet := Asking(cfg, id, outpoint, amount, drawn)))),
                                            Silent))
  {
    hide StepNode;
    StartsWhenIdle(cfg, node, RequestCmd(id, outpoint, amount, DELAY_STEP), drawn);
  }

  lemma PlainAfterSave(cfg: Config, vol: Native, cmd: Command, next: Pc)
    requires next.AskPublish? || next.RegSend?
    ensures AfterSave(cfg, vol, cmd, next) == Run(cmd, next)
  {
    hide Updating;
  }

  lemma ReachableValid(sys: System, i: nat)
    requires Reachable(sys) && i < |sys.nodes| && i < |sys.cfgs|
    ensures NativeValid(CfgOf(sys, i), NodeOf(sys, i).durable)
  {
    hide Reachable, SessionSafe, NativeValid;
    ReachableIsSafe(sys, i);
  }

  // ---------------------------------------------------------------------------
  // The same in the joint system.

  predicate Newcomer(sys: System, j: nat) {
    At(sys, j, EMPTY, Idle) && NodeOf(sys, j).durable.exit.None?
  }

  lemma AskMoves(sys: System, j: nat, id: Token, outpoint: OutPoint, amount: u64) returns (moves: seq<Move>)
    requires Reachable(sys) && Newcomer(sys, j) && !outpoint.IsNull() && amount <= MAX_MONEY
    ensures Advanced(sys, After(sys, moves), j, Asking(CfgOf(sys, j), id, outpoint, amount, Draw(sys.world.nextToken)),
                     Run(RequestCmd(id, outpoint, amount, DELAY_STEP), AskPublish))
  {
    hide StepNode, AfterSave, NativeValid, Next, Advanced, Reachable;
    var cfg, node, drawn := CfgOf(sys, j), NodeOf(sys, j), Draw(sys.world.nextToken);
    var cmd, op := RequestCmd(id, outpoint, amount, DELAY_STEP), AskOp(CfgOf(sys, j), id, outpoint, amount, drawn);
    var vol := node.durable.(wallet := Asking(cfg, id, outpoint, amount, drawn));
    ReachableValid(sys, j);
    StartsAsking(cfg, node, id, outpoint, amount, drawn);
    NotMovedYet(sys, j, EMPTY, Idle);
    AdvanceBy(sys, [], j, EMPTY, Idle, Start(cmd, drawn), node.(session := Dirty(cmd, AskPublish, op, vol)), Silent);
    PlainAfterSave(cfg, vol, cmd, AskPublish);
    moves := SaveMove(sys, [] + [WalletMove(j, Start(cmd, drawn))], j, EMPTY, cmd, AskPublish, op, vol,
                      Run(cmd, AskPublish));
  }

  /** A new wallet asks for the coin: its request is saved, then published. */
  lemma AskRuns(sys: System, j: nat, id: Token, outpoint: OutPoint, amount: u64) returns (moves: seq<Move>)
    requires Reachable(sys) && Newcomer(sys, j) && !outpoint.IsNull() && amount <= MAX_MONEY
    ensures var drawn := Draw(sys.world.nextToken);
            && Advanced(sys, After(sys, moves), j, Asking(CfgOf(sys, j), id, outpoint, amount, drawn), Idle)
            && AskedRequest(CfgOf(sys, j), id, outpoint, amount, drawn) in After(sys, moves).world.requests
  {
    hide Apply, StepSession, StartCommand, NativeValid, StepHand, Next;
    var v := Asking(CfgOf(sys, j), id, outpoint, amount, Draw(sys.world.nextToken));
    var cmd := RequestCmd(id, outpoint, amount, DELAY_STEP);
    var asked := AskMoves(sys, j, id, outpoint, amount);
    var a := After(sys, asked);
    AdvanceBy(sys, asked, j, v, Run(cmd, AskPublish), Publish, NodeOf(a, j).(session := Idle),
              Published(IncomingOf(v).request));
    moves := asked + [WalletMove(j, Publish)];
  }

  // ---------------------------------------------------------------------------
  // Sending and releasing.

  lemma ReleaseMove(sys: System, i: nat, w: WalletState, cmd: Command) returns (moves: seq<Move>)
    requires Reachable(sys) && At(sys, i, w, Run(cmd, SignRelease)) && w.coin.Some? && CoinOf(w).outgoing.Some?
    ensures var next := After(sys, moves);
            && Advanced(sys, next, i, w, Idle)
            && (i, OutgoingOf(w).envelope) in next.world.packages
  {
    hide Apply, StepSession, StartCommand, NativeValid, StepHand, Next, StepSave;
    var out := OutgoingOf(w);
    NotMovedYet(sys, i, w, Run(cmd, SignRelease));
    AdvanceBy(sys, [], i, w, Run(cmd, SignRelease), Release, NodeOf(sys, i).(session := Idle),
              Released(out.request, out.envelope));
    moves := [] + [WalletMove(i, Release)];
  }

  /** The coin is sent to a published request it may be sent to, and the package is released. */
  lemma SendRuns(sys: System, i: nat, w: WalletState, request: TransferRequest, funding: ObservedFunding)
      returns (moves: seq<Move>, w': WalletState)
    requires Reachable(sys) && ReadyToSend(sys, i, w, request, funding)
    ensures var done := After(sys, moves);
            && Reachable(done) && At(done, i, w', Idle) && SentTo(w, w', request)
            && OnlyMoved(sys, done, i) && CoinLive(done.world, w)
            && |CoinLogOf(done.world, w).entries| == |CoinOf(w).history| + 1
            && (i, OutgoingOf(w').envelope) in done.world.packages
  {
    hide Next, ReadyToSend, Reachable;
    var sent: seq<Move>;
    sent, w' := TransferRunsThrough(sys, i, w, request, funding);
    var mid := After(sys, sent);
    var releasing := ReleaseMove(mid, i, w', SignCmd(request));
    AfterConcat(sys, sent, releasing);
    OnlyMovedTwice(sys, mid, After(mid, releasing), i);
    moves := sent + releasing;
  }

  // ---------------------------------------------------------------------------
  // Accepting.

  lemma StartsAccepting(cfg: Config, node: Node, request: TransferRequest, envelope: TransferEnvelope, drawn: Drawn)
    requires node.session.Idle? && NativeValid(cfg, node.durable)
    requires node.durable.wallet.coin.None? && node.durable.wallet.incoming.Some?
    requires DecryptTransfer(request, IncomingOf(node.durable.wallet).transportSecret, envelope).Ok?
    ensures StepNode(cfg, node, Start(AcceptCmd(request, envelope), drawn))
         == Some((node.(session := Run(AcceptCmd(request, envelope), AcceptStatus)), Silent))
  {
    hide Apply, StepNode, NativeValid, StartExit, PayloadSize;
    StartsWhenIdle(cfg, node, AcceptCmd(request, envelope), drawn);
  }

  lemma AsksStatus(
      cfg: Config, node: Node, request: TransferRequest, envelope: TransferEnvelope, status: CoinStatus, drawn: Drawn)
    requires node.session == Run(AcceptCmd(request, envelope), AcceptStatus)
    ensures StepNode(cfg, node, GotStatus(status, drawn))
         == Some((node.(session := Run(AcceptCmd(request, envelope), AcceptObserve(status))), Silent))
  {
    hide Apply, StartCommand;
  }

  lemma AppliesAccept(
      cfg: Config, native: Native, request: TransferRequest, envelope: TransferEnvelope, status: CoinStatus,
      funding: ObservedFunding)
    requires AcceptTransfer(native.wallet, cfg.network, request, envelope, status, funding, cfg.minConfirmations,
                            cfg.minReaction).Ok?
    ensures Apply(cfg, native, WalletOp(Accept(request, envelope, status, funding)))
         == Ok(native.(wallet := AcceptTransfer(native.wallet, cfg.network, request, envelope, status, funding,
                                                cfg.minConfirmations, cfg.minReaction).value.0))
  {
    hide AcceptTransfer;
  }

  lemma Accepts(
      cfg: Config, node: Node, request: TransferRequest, envelope: TransferEnvelope, status: CoinStatus,
      funding: ObservedFunding, vol: Native)
    requires node.session == Run(AcceptCmd(request, envelope), AcceptObserve(status))
    requires Apply(cfg, node.durable, WalletOp(Accept(request, envelope, status, funding))) == Ok(vol)
    ensures StepNode(cfg, node, Sees(funding))
         == Some((node.(session
                        := Dirty(AcceptCmd(request, envelope), Done,
                                 WalletOp(Accept(request, envelope, status, funding)), vol)),
                  Silent))
  {
    hide Apply, StartCommand;
  }

  /** A released package in the hands of an idle receiver that asked for it, on a chain that allows it. */
  ghost predicate MayAccept(
      sys: System, s: nat, sender: WalletState, j: nat, v: WalletState, envelope: TransferEnvelope,
      funding: ObservedFunding) {
    && IsWallet(sys, s, sender) && At(sys, j, v, Idle) && AddressedTo(sys, s, v, envelope)
    && sender.coin.Some? && CoinLive(sys.world, sender)
    && IncomingOf(v).request.network == CfgOf(sys, j).network
    && envelope.ciphertext.payload.history != []
    && ChainAllows(IncomingOf(v).request, envelope.ciphertext.payload, funding, CfgOf(sys, j).minConfirmations,
                   CfgOf(sys, j).minReaction)
  }

  lemma AcceptOpens(
      sys: System, s: nat, sender: WalletState, j: nat, v: WalletState, envelope: TransferEnvelope)
      returns (moves: seq<Move>)
    requires Reachable(sys) && IsWallet(sys, s, sender) && At(sys, j, v, Idle) && AddressedTo(sys, s, v, envelope)
    ensures Advanced(sys, After(sys, moves), j, v, Run(AcceptCmd(IncomingOf(v).request, envelope), AcceptStatus))
  {
    hide InTransit, Next, StepNode, Known, NativeValid;
    var request, drawn := IncomingOf(v).request, Draw(sys.world.nextToken);
    var cmd := AcceptCmd(request, envelope);
    AddressedIsInTransit(sys, s, sender, j, v, envelope);
    PackageOpens(sys.world, s, sender, j, v, envelope);
    ReachableValid(sys, j);
    StartsAccepting(CfgOf(sys, j), NodeOf(sys, j), request, envelope, drawn);
    NotMovedYet(sys, j, v, Idle);
    AdvanceBy(sys, [], j, v, Idle, Start(cmd, drawn), NodeOf(sys, j).(session := Run(cmd, AcceptStatus)), Silent);
    moves := [] + [WalletMove(j, Start(cmd, drawn))];
  }

  lemma AcceptAsks(
      sys: System, s: nat, sender: WalletState, j: nat, v: WalletState, request: TransferRequest,
      envelope: TransferEnvelope, before: seq<Move>)
      returns (moves: seq<Move>)
    requires Reachable(sys) && IsWallet(sys, s, sender) && sender.coin.Some? && CoinLive(sys.world, sender)
    requires Advanced(sys, After(sys, before), j, v, Run(AcceptCmd(request, envelope), AcceptStatus))
    ensures Advanced(sys, After(sys, moves), j, v,
                     Run(AcceptCmd(request, envelope), AcceptObserve(LiveStatus(sys.world, sender))))
  {
    hide StepNode, Known, Next;
    var a, status := After(sys, before), LiveStatus(sys.world, sender);
    var event := GotStatus(status, Draw(a.world.nextToken));
    WalletKnown(sys, s, sender);
    AsksStatus(CfgOf(a, j), NodeOf(a, j), request, envelope, status, Draw(a.world.nextToken));
    AdvanceBy(sys, before, j, v, Run(AcceptCmd(request, envelope), AcceptStatus), event,
              NodeOf(a, j).(session := Run(AcceptCmd(request, envelope), AcceptObserve(status))), Silent);
    moves := before + [WalletMove(j, event)];
  }

  lemma IdleAfterDone(cfg: Config, vol: Native, cmd: Command)
    ensures AfterSave(cfg, vol, cmd, Done) == Idle
  {
    hide Updating;
  }

  lemma AcceptSaves(
      sys: System, s: nat, sender: WalletState, j: nat, v: WalletState, envelope: TransferEnvelope,
      funding: ObservedFunding, before: seq<Move>)
      returns (moves: seq<Move>, v': WalletState)
    requires Reachable(sys) && MayAccept(sys, s, sender, j, v, envelope, funding)
    requires Advanced(sys, After(sys, before), j, v, Run(AcceptCmd(IncomingOf(v).request, envelope),
                                                         AcceptObserve(LiveStatus(sys.world, sender))))
    ensures Advanced(sys, After(sys, moves), j, v', Idle) && AcceptedFrom(v, IncomingOf(v).request, envelope, v')
  {
    hide StepNode, Apply, AcceptTransfer, Next, ChainAllows, Reachable;
    var a, cfg, request, status := After(sys, before), CfgOf(sys, j), IncomingOf(v).request,
        LiveStatus(sys.world, sender);
    var op := WalletOp(Accept(request, envelope, status, funding));
    PackageIsAccepted(sys, s, sender, j, v, envelope, funding, cfg.minConfirmations, cfg.minReaction);
    v' := AcceptTransfer(v, cfg.network, request, envelope, status, funding, cfg.minConfirmations,
                         cfg.minReaction).value.0;
    var vol := NodeOf(a, j).durable.(wallet := v');
    AppliesAccept(CfgOf(a, j), NodeOf(a, j).durable, request, envelope, status, funding);
    Accepts(CfgOf(a, j), NodeOf(a, j), request, envelope, status, funding, vol);
    var event, cmd := Sees(funding), AcceptCmd(request, envelope);
    AdvanceBy(sys, before, j, v, Run(cmd, AcceptObserve(status)), event,
              NodeOf(a, j).(session := Dirty(cmd, Done, op, vol)),
              Silent);
    IdleAfterDone(cfg, vol, cmd);
    moves := SaveMove(sys, before + [WalletMove(j, event)], j, v, cmd, Done, op, vol, Idle);
  }

  /** The receiver takes the coin over. */
  lemma AcceptRuns(
      sys: System, s: nat, sender: WalletState, j: nat, v: WalletState, envelope: TransferEnvelope,
      funding: ObservedFunding)
      returns (moves: seq<Move>, v': WalletState)
    requires Reachable(sys) && MayAccept(sys, s, sender, j, v, envelope, funding)
    ensures Advanced(sys, After(sys, moves), j, v', Idle) && AcceptedFrom(v, IncomingOf(v).request, envelope, v')
  {
    hide Next, ChainAllows;
    var started := AcceptOpens(sys, s, sender, j, v, envelope);
    var asked := AcceptAsks(sys, s, sender, j, v, IncomingOf(v).request, envelope, started);
    moves, v' := AcceptSaves(sys, s, sender, j, v, envelope, funding, asked);
  }

  // ---------------------------------------------------------------------------
  // From one owner to the next.

  /** A chain that shows the coin unspent, this many confirmations deep. */
  function Shown(m: CoinMetadata, confirmations: u32): ObservedFunding {
    ObservedFunding(m.outpoint, TxOut(m.amount, FundingScript(m.keys)), confirmations, true, false)
  }

  /** Wallet `i` owns this coin, idle, with nothing pending and no exit begun, and the signer lives. */
  predicate OwnerAt(sys: System, i: nat, w: WalletState) {
    && At(sys, i, w, Idle) && NodeOf(sys, i).durable.exit.None?
    && Ready(w) && CoinOf(w).metadata.Some? && CoinLive(sys.world, w)
  }

  /** Both policies accept the depth, and one more step leaves both margins open. */
  predicate PolicyAllows(a: Config, b: Config, w: WalletState, confirmations: u32) {
    var delay := NewestDelay(CoinOf(w).history);
    && CoinOf(w).metadata.Some?
    && a.network == b.network == MetadataOf(w).network
    && a.minConfirmations <= confirmations && b.minConfirmations <= confirmations
    && delay > DELAY_STEP + confirmations + a.minReaction
    && delay > DELAY_STEP + confirmations + b.minReaction
    && delay > DELAY_STEP + confirmations + DELAY_STEP
  }

  lemma ReadyTerms(world: World, i: nat, w: WalletState)
    requires Known(world, i, w) && Ready(w) && DrawsOk(world)
    ensures CoinOf(w).metadata.Some?
    ensures var m := MetadataOf(w);
            && !m.outpoint.IsNull() && m.amount <= MAX_MONEY && m.keys == CoinOf(w).keys
            && m.keys.client != m.keys.enclave
            && CapOf(w) < world.nextToken
            && 0 < NewestDelay(CoinOf(w).history) <= U16_MAX
  {
    ReadyHas(world, i, w);
    var log := CoinLogOf(world, w);
    assert CanonicalEntry(MetadataOf(w), log.entries[|log.entries| - 1]);
  }

  /** The newcomer's request is one the owner may send to. */
  lemma AskedMayBeSent(cfg: Config, other: Config, w: WalletState, drawn: Drawn, confirmations: u32)
    requires Ready(w) && CoinOf(w).metadata.Some? && PolicyAllows(cfg, other, w, confirmations)
    requires MetadataOf(w).keys == CoinOf(w).keys
    requires CoinOf(w).keys.client != CoinOf(w).keys.enclave
    requires CapOf(w) != drawn.b && NewestDelay(CoinOf(w).history) <= U16_MAX
    ensures var m := MetadataOf(w);
            var request := AskedRequest(other, CoinOf(w).keys.coinId, m.outpoint, m.amount, drawn);
            MaySend(w, cfg.network, request, Shown(m, confirmations), cfg.minConfirmations, cfg.minReaction)
  {
  }

  lemma OwnerSends(sys: System, i: nat, w: WalletState, request: TransferRequest, funding: ObservedFunding)
    requires Reachable(sys) && OwnerAt(sys, i, w) && request in sys.world.requests
    requires MaySend(w, CfgOf(sys, i).network, request, funding, CfgOf(sys, i).minConfirmations,
                     CfgOf(sys, i).minReaction)
    ensures ReadyToSend(sys, i, w, request, funding)
  {
    hide Reachable, Known, NativeSafe, BeginTransfer, Fits;
    KnownWallet(sys, i, w, Idle);
    SafeWallet(sys, i, w, Idle);
    OwnerMaySend(sys.world, i, w, CfgOf(sys, i).network, request, funding, CfgOf(sys, i).minConfirmations,
                 CfgOf(sys, i).minReaction);
  }

  lemma ReachableDraws(sys: System)
    requires Reachable(sys)
    ensures DrawsOk(sys.world)
  {
    hide Reachable, AllSafe, NodesOk, MessagesOk;
    ReachableAgrees(sys);
  }

  /** A request for the coin of `w`, with the margin its author asks for. */
  predicate RequestFor(cfg: Config, w: WalletState, request: TransferRequest) {
    var m := MetadataOf(w);
    && request.coinId == CoinOf(w).keys.coinId && request.outpoint == m.outpoint && request.amount == m.amount
    && request.network == m.network && request.minReaction == AskedMargin(cfg)
  }

  /** Wallet state `v` has nothing but this request of its own. */
  predicate Asks(v: WalletState, request: TransferRequest) {
    && v.coin.None? && v.incoming.Some? && IncomingOf(v).request == request
    && request.nextCapHash == CapHash(IncomingOf(v).cap)
  }

  lemma AskIsWelcome(sys: System, i: nat, w: WalletState, j: nat, confirmations: u32)
    requires Reachable(sys) && OwnerAt(sys, i, w) && j < |sys.cfgs|
             && PolicyAllows(CfgOf(sys, i), CfgOf(sys, j), w, confirmations)
    ensures var m, cfg := MetadataOf(w), CfgOf(sys, i);
            var request := AskedRequest(CfgOf(sys, j), CoinOf(w).keys.coinId, m.outpoint, m.amount,
                                        Draw(sys.world.nextToken));
            && !m.outpoint.IsNull() && m.amount <= MAX_MONEY
            && MaySend(w, cfg.network, request, Shown(m, confirmations), cfg.minConfirmations, cfg.minReaction)
  {
    hide Reachable, Known;
    KnownWallet(sys, i, w, Idle);
    ReachableDraws(sys);
    ReadyTerms(sys.world, i, w);
    AskedMayBeSent(CfgOf(sys, i), CfgOf(sys, j), w, Draw(sys.world.nextToken), confirmations);
  }

  /** The owner is asked for its coin and may send it. */
  lemma AskOwner(sys: System, i: nat, w: WalletState, j: nat, confirmations: u32)
      returns (moves: seq<Move>, request: TransferRequest, v: WalletState)
    requires Reachable(sys) && OwnerAt(sys, i, w) && Newcomer(sys, j)
             && PolicyAllows(CfgOf(sys, i), CfgOf(sys, j), w, confirmations)
    ensures var done, m := After(sys, moves), MetadataOf(w);
            && Advanced(sys, done, j, v, Idle)
            && ReadyToSend(done, i, w, request, Shown(m, confirmations))
            && Asks(v, request) && RequestFor(CfgOf(sys, j), w, request)
  {
    hide Next, ReadyToSend, Reachable;
    var m, drawn := MetadataOf(w), Draw(sys.world.nextToken);
    AskIsWelcome(sys, i, w, j, confirmations);
    moves := AskRuns(sys, j, CoinOf(w).keys.coinId, m.outpoint, m.amount);
    request := AskedRequest(CfgOf(sys, j), CoinOf(w).keys.coinId, m.outpoint, m.amount, drawn);
    v := Asking(CfgOf(sys, j), CoinOf(w).keys.coinId, m.outpoint, m.amount, drawn);
    OwnerSends(After(sys, moves), i, w, request, Shown(m, confirmations));
  }

  /** What the released package says, from the log. */
  lemma SentFacts(a: World, b: World, i: nat, w: WalletState, w': WalletState, request: TransferRequest)
    requires Known(a, i, w) && Ready(w) && Known(b, i, w') && SentTo(w, w', request) && LogsGrow(a, b)
    requires |CoinLogOf(b, w).entries| == |CoinOf(w).history| + 1
    ensures var envelope := OutgoingOf(w').envelope;
            var payload := envelope.ciphertext.payload;
            && envelope.ciphertext.aad == request && CoinOf(w).metadata == Some(payload.metadata)
            && |payload.history| == |CoinOf(w).history| + 1
            && Last(payload.history).delay + DELAY_STEP == NewestDelay(CoinOf(w).history)
            && UsedCap(CoinLogOf(b, w), CapOf(w))
  {
    var before, after, n := CoinLogOf(a, w), CoinLogOf(b, w), |CoinOf(w).history|;
    ReadyHas(a, i, w);
    assert Extends(a.logs[Key(CoinOf(w))], b.logs[Key(CoinOf(w))]);
    assert EntryAuthorized(Key(CoinOf(w)), after, n) && AuthAt(after, n) == AuthAt(before, n);
    KnownLogIsExclusive(b, i, w', n - 1, n, 0);
    SpentInLog(after, n);
  }

  lemma PackageSuits(
      cfg: Config, other: Config, w: WalletState, request: TransferRequest, payload: TransferPayload,
      confirmations: u32)
    requires Ready(w) && CoinOf(w).metadata.Some? && PolicyAllows(other, cfg, w, confirmations)
    requires CoinOf(w).metadata == Some(payload.metadata)
             && payload.metadata.keys.client != payload.metadata.keys.enclave
    requires payload.history != [] && Last(payload.history).delay + DELAY_STEP
             == NewestDelay(CoinOf(w).history) <= U16_MAX
    requires request.minReaction == AskedMargin(cfg)
    ensures ChainAllows(request, payload, Shown(payload.metadata, confirmations), cfg.minConfirmations, cfg.minReaction)
  {
  }

  /** `v` is the coin of `w` in new hands: one recovery further, one step earlier, under the capability of `request`. */
  predicate TakenOver(w: WalletState, v: WalletState, request: TransferRequest) {
    var c, d := CoinOf(w), CoinOf(v);
    && Ready(v) && d.keys == c.keys && d.metadata == c.metadata
    && |d.history| == |c.history| + 1 && NewestDelay(d.history) + DELAY_STEP == NewestDelay(c.history)
    && d.acceptedRequest == Some(request) && request.nextCapHash == CapHash(CapOf(v))
  }

  /** Nobody but these two moved; no request was withdrawn. */
  ghost predicate OnlyBothMoved(sys: System, next: System, i: nat, j: nat) {
    && next.cfgs == sys.cfgs && |next.nodes| == |sys.nodes|
    && (forall k :: 0 <= k < |sys.nodes| && k != i && k != j ==> NodeOf(next, k) == NodeOf(sys, k))
    && sys.world.requests <= next.world.requests
  }

  lemma BothMoved(sys: System, a: System, b: System, c: System, i: nat, j: nat)
    requires OnlyMoved(sys, a, j) && OnlyMoved(a, b, i) && OnlyMoved(b, c, j)
    ensures OnlyBothMoved(sys, c, i, j)
  {
  }

  lemma AcceptedIsTaken(
      b: World, w: WalletState, v: WalletState, request: TransferRequest, envelope: TransferEnvelope, v': WalletState)
    requires Ready(w) && CoinOf(w).metadata.Some? && AcceptedFrom(v, request, envelope, v')
    requires request.nextCapHash == CapHash(IncomingOf(v).cap)
    requires CoinOf(w).metadata == Some(envelope.ciphertext.payload.metadata)
             && MetadataOf(w).keys == CoinOf(w).keys
    requires |envelope.ciphertext.payload.history| == |CoinOf(w).history| + 1
    requires Last(envelope.ciphertext.payload.history).delay + DELAY_STEP == NewestDelay(CoinOf(w).history)
    ensures Ready(v') && TakenOver(w, v', request) && Key(CoinOf(v')) == Key(CoinOf(w))
  {
  }

  /** The asked owner sends, the package is released, and its facts suit the receiver. */
  lemma SendAsked(
      sys: System, a: System, i: nat, w: WalletState, j: nat, v: WalletState, request: TransferRequest,
      confirmations: u32)
      returns (moves: seq<Move>, w': WalletState)
    requires Reachable(sys) && OwnerAt(sys, i, w) && i != j && j < |sys.cfgs|
    requires PolicyAllows(CfgOf(sys, i), CfgOf(sys, j), w, confirmations)
    requires Advanced(sys, a, j, v, Idle) && ReadyToSend(a, i, w, request, Shown(MetadataOf(w), confirmations))
    requires Asks(v, request) && RequestFor(CfgOf(sys, j), w, request)
    ensures var b := After(a, moves);
            && Reachable(b) && OnlyMoved(a, b, i) && CoinLive(b.world, w) && SentTo(w, w', request)
            && MayAccept(b, i, w', j, v, OutgoingOf(w').envelope, Shown(MetadataOf(w), confirmations))
            && PackageSays(b.world, w, w', request)
  {
    hide Next, ReadyToSend, Reachable;
    var funding := Shown(MetadataOf(w), confirmations);
    moves, w' := SendRuns(a, i, w, request, funding);
    LogsOnlyGrow(a, moves);
    var b := After(a, moves);
    SentOnSuits(sys, a, b, i, w, w', j, request, confirmations);
  }

  /** What the package of `w'` says about the coin `w` sent. */
  ghost predicate PackageSays(b: World, w: WalletState, w': WalletState, request: TransferRequest) {
    && w'.coin.Some? && CoinOf(w').outgoing.Some?
    && var envelope := OutgoingOf(w').envelope;
       var payload := envelope.ciphertext.payload;
       && envelope.ciphertext.aad == request && CoinOf(w).metadata == Some(payload.metadata)
       && |payload.history| == |CoinOf(w).history| + 1
       && NewestDelay(payload.history) + DELAY_STEP == NewestDelay(CoinOf(w).history)
       && UsedCap(CoinLogOf(b, w), CapOf(w))
  }

  lemma SentOnSuits(
      sys: System, a: System, b: System, i: nat, w: WalletState, w': WalletState, j: nat, request: TransferRequest,
      confirmations: u32)
    requires Reachable(a) && Reachable(b) && IsWallet(a, i, w) && IsWallet(b, i, w') && LogsGrow(a.world, b.world)
    requires a.cfgs == sys.cfgs && i < |sys.cfgs| && j < |sys.cfgs|
    requires Ready(w) && CoinOf(w).metadata.Some? && PolicyAllows(CfgOf(sys, i), CfgOf(sys, j), w, confirmations)
    requires SentTo(w, w', request) && |CoinLogOf(b.world, w).entries| == |CoinOf(w).history| + 1
    requires request.minReaction == AskedMargin(CfgOf(sys, j))
    ensures PackageSays(b.world, w, w', request)
    ensures ChainAllows(request, OutgoingOf(w').envelope.ciphertext.payload,
                        Shown(MetadataOf(w), confirmations), CfgOf(sys, j).minConfirmations, CfgOf(sys, j).minReaction)
  {
    hide Reachable, Known, ChainAllows;
    WalletKnown(a, i, w);
    WalletKnown(b, i, w');
    ReachableDraws(a);
    ReadyTerms(a.world, i, w);
    SentFacts(a.world, b.world, i, w, w', request);
    PackageSuits(CfgOf(sys, j), CfgOf(sys, i), w, request, OutgoingOf(w').envelope.ciphertext.payload, confirmations);
  }

  /**
   A whole hand-over, as a run: the newcomer asks, the owner signs (and
   crashes on the way), releases the package, and the newcomer accepts it. It
   exists from every reachable state in which the signer lives and both
   policies allow one more step, and it makes the newcomer an owner like the
   one before.
   */
  lemma HandsOver(sys: System, i: nat, w: WalletState, j: nat, confirmations: u32)
      returns (moves: seq<Move>, v: WalletState, request: TransferRequest)
    requires Reachable(sys) && OwnerAt(sys, i, w) && Newcomer(sys, j) && i != j
    requires PolicyAllows(CfgOf(sys, i), CfgOf(sys, j), w, confirmations)
    ensures var done := After(sys, moves);
            && Reachable(done) && OwnerAt(done, j, v) && TakenOver(w, v, request)
            && OnlyBothMoved(sys, done, i, j) && request in done.world.requests && RequestFor(CfgOf(sys, j), w, request)
            && UsedCap(CoinLogOf(done.world, v), CapOf(w))
  {
    hide Next, ReadyToSend, MayAccept;
    var a, asking, u;
    a, asking, request, u := AskStage(sys, i, w, j, confirmations);
    var b, sending, w' := SendStage(sys, a, asking, i, w, j, u, request, confirmations);
    var accepting;
    accepting, v := AcceptRuns(b, i, w', j, u, OutgoingOf(w').envelope, Shown(MetadataOf(w), confirmations));
    AfterConcat(sys, sending, accepting);
    moves := sending + accepting;
    Closes(sys, a, b, After(b, accepting), i, w, w', j, u, v, request);
  }

  lemma AskStage(sys: System, i: nat, w: WalletState, j: nat, confirmations: u32)
      returns (a: System, moves: seq<Move>, request: TransferRequest, u: WalletState)
    requires Reachable(sys) && OwnerAt(sys, i, w) && Newcomer(sys, j)
             && PolicyAllows(CfgOf(sys, i), CfgOf(sys, j), w, confirmations)
    ensures a == After(sys, moves) && Advanced(sys, a, j, u, Idle)
    ensures ReadyToSend(a, i, w, request, Shown(MetadataOf(w), confirmations))
    ensures Asks(u, request) && RequestFor(CfgOf(sys, j), w, request) && request in a.world.requests
  {
    hide Next, Begun;
    moves, request, u := AskOwner(sys, i, w, j, confirmations);
    a := After(sys, moves);
  }

  lemma SendStage(
      sys: System, a: System, before: seq<Move>, i: nat, w: WalletState, j: nat, u: WalletState,
      request: TransferRequest, confirmations: u32)
      returns (b: System, moves: seq<Move>, w': WalletState)
    requires Reachable(sys) && OwnerAt(sys, i, w) && i != j && j < |sys.cfgs| && a == After(sys, before)
    requires PolicyAllows(CfgOf(sys, i), CfgOf(sys, j), w, confirmations)
    requires Advanced(sys, a, j, u, Idle) && ReadyToSend(a, i, w, request, Shown(MetadataOf(w), confirmations))
    requires Asks(u, request) && RequestFor(CfgOf(sys, j), w, request)
    ensures b == After(sys, moves)
    ensures Reachable(b) && OnlyMoved(a, b, i) && CoinLive(b.world, w) && PackageSays(b.world, w, w', request)
    ensures MayAccept(b, i, w', j, u, OutgoingOf(w').envelope, Shown(MetadataOf(w), confirmations))
  {
    hide *;
    var sending;
    sending, w' := SendAsked(sys, a, i, w, j, u, request, confirmations);
    AfterConcat(sys, before, sending);
    moves := before + sending;
    b := After(a, sending);
  }

  lemma Closes(
      sys: System, a: System, b: System, c: System, i: nat, w: WalletState, w': WalletState, j: nat, u: WalletState,
      v: WalletState,
      request: TransferRequest)
    requires Reachable(sys) && OwnerAt(sys, i, w) && Newcomer(sys, j)
    requires OnlyMoved(sys, a, j) && request in a.world.requests && OnlyMoved(a, b, i) && CoinLive(b.world, w)
    requires PackageSays(b.world, w, w', request) && u.incoming.Some?
             && request.nextCapHash == CapHash(IncomingOf(u).cap)
    requires Advanced(b, c, j, v, Idle) && AcceptedFrom(u, request, OutgoingOf(w').envelope, v)
    ensures OwnerAt(c, j, v) && TakenOver(w, v, request) && OnlyBothMoved(sys, c, i, j) && request in c.world.requests
    ensures UsedCap(CoinLogOf(c.world, v), CapOf(w))
  {
    hide Reachable, Known;
    KnownWallet(sys, i, w, Idle);
    ReadyHas(sys.world, i, w);
    BothMoved(sys, a, b, c, i, j);
    AcceptedIsTaken(c.world, w, u, request, OutgoingOf(w').envelope, v);
  }
}
