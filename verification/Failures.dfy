/** Runs that end badly: a coin nobody can move, and a saved response nobody can apply. */
module Failures {
  import opened Wrappers
  import opened Bitcoin
  import opened Enclave
  import opened Client
  import opened Transfer
  import opened Validation
  import opened Funding
  import opened Wallet
  import opened Driver
  import opened DriverSafety
  import opened Updates
  import opened Ledger
  import opened Protocol
  import opened Agreement
  import opened AgreementUpdates
  import opened AgreementSteps
  import opened JointFacts
  import opened Handover
  import opened Resume
  import opened JointTheorems
  import opened Progress
  import opened Sending
  import opened Lifecycle
  import opened Opening

  // ---------------------------------------------------------------------------
  // A coin that comes back to a request it was sent to before.

  /** Nobody holds the capability that opens the live authorization of this coin. */
  ghost predicate Stranded(sys: System, id: Token) {
    TakenId(sys.world, id) && !Held(sys, id, LiveCap(sys.world, id))
  }

  /** Three policies that allow three more steps. */
  predicate ThreeSteps(a: Config, b: Config, c: Config, w: WalletState, confirmations: u32) {
    var delay := NewestDelay(CoinOf(w).history);
    && CoinOf(w).metadata.Some?
    && a.network == b.network == c.network == MetadataOf(w).network
    && a.minConfirmations <= confirmations && b.minConfirmations <= confirmations && c.minConfirmations <= confirmations
    && delay > 3 * DELAY_STEP + confirmations + a.minReaction && delay > 3 * DELAY_STEP + confirmations + b.minReaction
    && delay > 3 * DELAY_STEP + confirmations + c.minReaction && delay > 4 * DELAY_STEP + confirmations
  }

  /** The request that brought the coin to `v1` was spent when `v1` sent it on; its terms still fit. */
  lemma OldRequestFits(
      world: World, k: nat, w: WalletState, v1: WalletState, v2: WalletState, request: TransferRequest, b: Config,
      c: Config, confirmations: u32)
    requires Ready(w) && CoinOf(w).metadata.Some? && Ready(v1) && Ready(v2) && CoinOf(v2).metadata.Some?
    requires CoinOf(w).metadata == CoinOf(v2).metadata && CoinOf(w).keys == CoinOf(v2).keys
    requires RequestFor(b, w, request) && request.nextCapHash == CapHash(CapOf(v1))
    requires Known(world, k, v2) && UsedCap(CoinLogOf(world, v2), CapOf(v1))
    requires c.network == MetadataOf(v2).network && c.minConfirmations <= confirmations
    requires var delay := NewestDelay(CoinOf(v2).history);
             && delay <= U16_MAX
             && delay > DELAY_STEP + confirmations + b.minReaction && delay > DELAY_STEP + confirmations + c.minReaction
             && delay > 2 * DELAY_STEP + confirmations
    ensures MaySend(v2, c.network, request, Shown(MetadataOf(v2), confirmations), c.minConfirmations,
                    c.minReaction)
  {
    hide PendingOk, CanonicalRecovery;
    ReadyHas(world, k, v2);
  }

  lemma SecondStep(
      sys: System, j: nat, w: WalletState, v1: WalletState, k: nat, request: TransferRequest, confirmations: u32)
      returns (moves: seq<Move>, v2: WalletState)
    requires Reachable(sys) && OwnerAt(sys, j, v1) && Newcomer(sys, k) && j != k
    requires Ready(w) && CoinOf(w).metadata.Some? && TakenOver(w, v1, request)
    requires RequestFor(CfgOf(sys, j), w, request) && request in sys.world.requests
    requires ThreeSteps(CfgOf(sys, j), CfgOf(sys, j), CfgOf(sys, k), w, confirmations)
    ensures var done := After(sys, moves);
            && Reachable(done) && ReadyToSend(done, k, v2, request, Shown(MetadataOf(w), confirmations))
            && CoinOf(v2).keys == CoinOf(w).keys
            && UsedCap(CoinLogOf(done.world, v2), request.nextCapHash.cap)
  {
    hide Next, ReadyToSend, Known, MaySend, Reachable, RequestFor;
    var r2;
    moves, v2, r2 := HandsOver(sys, j, v1, k, confirmations);
    var done := After(sys, moves);
    KnownWallet(done, k, v2, Idle);
    ReachableDraws(done);
    ReadyTerms(done.world, k, v2);
    OldRequestFits(done.world, k, w, v1, v2, request, CfgOf(sys, j), CfgOf(sys, k), confirmations);
    OwnerSends(done, k, v2, request, Shown(MetadataOf(w), confirmations));
  }

  /**
   "Exactly one wallet can move the coin" fails: from every state with an
   owner, two newcomers and a delay wide enough for three more steps there is a
   run after which nobody can. The coin goes to the first newcomer, on to the
   second, and from there to the request that brought it to the first.
   */
  lemma OwnerCanStrand(
      sys: System, i: nat, w: WalletState, j: nat, k: nat, confirmations: u32)
      returns (moves: seq<Move>)
    requires Reachable(sys) && OwnerAt(sys, i, w) && Newcomer(sys, j) && Newcomer(sys, k) && i != j && j != k && i != k
    requires ThreeSteps(CfgOf(sys, i), CfgOf(sys, j), CfgOf(sys, k), w, confirmations)
    ensures Reachable(After(sys, moves)) && Stranded(After(sys, moves), CoinOf(w).keys.coinId)
  {
    hide Next, ReadyToSend, Reachable;
    var v1, v2, request;
    var first, second, third: seq<Move>;
    first, v1, request := HandsOver(sys, i, w, j, confirmations);
    var a := After(sys, first);
    second, v2 := SecondStep(a, j, w, v1, k, request, confirmations);
    third := ReuseStrandsCoin(After(a, second), k, v2, request, Shown(MetadataOf(w), confirmations));
    AfterConcat(sys, first, second);
    AfterConcat(sys, first + second, third);
    moves := (first + second) + third;
  }

  // ---------------------------------------------------------------------------
  // A saved response that can never be applied.

  /** The wallet saved a response that is not signed under its coin's key. */
  predicate StrayResponse(w: WalletState) {
    && Responding(w) && PurposeOf(w).Fund?
    && ResponseOf(w).signature.key != CoinOf(w).keys.enclave
  }

  lemma RestartMoves(sys: System, i: nat, w: WalletState, s: Session)
    requires Reachable(sys) && At(sys, i, w, s)
    ensures var next := Next(sys, Restart);
            && Reachable(next) && At(next, i, w, s) && next.world == sys.world.(coins := map[])
            && next.nodes == sys.nodes
            && next.cfgs == sys.cfgs
  {
    hide StepNode, Honest;
    NextIsReachable(sys, Restart);
  }

  /** A coin nobody has signed for yet. */
  function Unsigned(key: Token, id: Token, hash: CapHash): Coin {
    Coin(key, Authorization(id, hash, INITIAL_HANDOFF), 0, None)
  }

  function AnswerUnder(key: Token, r: SignRequest, handoff: Token): SignResponse {
    SignResponse(Sig(Point(key), r.sighash, 0), handoff)
  }

  lemma ReregisterMoves(sys: System, i: nat, w: WalletState, s: Session, r: RegisterRequest)
    requires Reachable(sys) && At(sys, i, w, s) && r in sys.world.sentRegs && sys.world.coins == map[]
             && sys.world.limit > 0
    ensures var next := Next(sys, DeliverRegister(r));
            && Reachable(next) && At(next, i, w, s) && next.world.sent == sys.world.sent
            && next.world.coins == map[r.coinId := Unsigned(sys.world.nextToken, r.coinId, r.initialCapHash)]
  {
    hide StepNode, SignWorld, Honest;
    NextIsReachable(sys, DeliverRegister(r));
  }

  lemma SignedAnew(sys: System, i: nat, w: WalletState, s: Session, r: SignRequest, key: Token)
    requires Reachable(sys) && At(sys, i, w, s) && r in sys.world.sent && r.nextCapHash != CapHash(r.cap)
             && r.handoff == INITIAL_HANDOFF
    requires sys.world.coins == map[r.coinId := Unsigned(key, r.coinId, CapHash(r.cap))]
    ensures var next, response := Next(sys, DeliverSign(r)), AnswerUnder(key, r, sys.world.nextToken);
            && Reachable(next) && At(next, i, w, s) && Entry(r, response) in next.world.replies
  {
    hide StepNode, AfterWallet, Honest;
    NextIsReachable(sys, DeliverSign(r));
  }

  /** What a first attempt asks of the signer, and that its coin's key is older than any key drawn now. */
  lemma FirstAttemptOpens(world: World, i: nat, w: WalletState)
    requires Known(world, i, w) && Attempting(w) && PurposeOf(w).Fund?
    ensures var r := AttemptOf(w).request;
            && r.coinId == CoinOf(w).keys.coinId && r.handoff == INITIAL_HANDOFF && r.nextCapHash != CapHash(r.cap)
            && CoinOf(w).currentCap == Some(r.cap)
            && CoinOf(w).keys.enclave == Point(Key(CoinOf(w))) && Key(CoinOf(w)) < world.nextToken
  {
  }

  /** A wallet waiting for the answer to its first signing request, whose registration can be delivered again. */
  predicate AwaitsFirst(sys: System, i: nat, w: WalletState, p: FundPolicy) {
    && At(sys, i, w, Run(FundCmd(p), FinWait)) && Resumes(FundCmd(p), w) && Preparing(w)
    && AttemptOf(w).request in sys.world.sent && sys.world.limit > 0
    && RegisterRequest(CoinOf(w).keys.coinId, CapHash(AttemptOf(w).request.cap)) in sys.world.sentRegs
  }

  /**
   "A saved response can be applied" fails once the signer has restarted: the
   old registration, delivered again, gets a new key; the old signing request
   opens it; and the wallet journals that answer.
   */
  lemma RestartGoesAstray(
      sys: System, i: nat, w: WalletState, p: FundPolicy)
      returns (moves: seq<Move>, w': WalletState)
    requires Reachable(sys) && AwaitsFirst(sys, i, w, p)
    ensures Reachable(After(sys, moves)) && IsWallet(After(sys, moves), i, w') && StrayResponse(w')
  {
    hide Next, Reachable;
    var three, response := RestartAndSign(sys, i, w, p);
    var recording := RecordMoves(After(sys, three), i, w, FundCmd(p), response);
    AfterConcat(sys, three, recording);
    moves := three + recording;
    w' := Recorded(w, response);
  }

  lemma RestartAndSign(
      sys: System, i: nat, w: WalletState, p: FundPolicy)
      returns (moves: seq<Move>, response: SignResponse)
    requires Reachable(sys) && AwaitsFirst(sys, i, w, p)
    ensures var c := After(sys, moves);
            && Reachable(c) && At(c, i, w, Run(FundCmd(p), FinWait))
            && Entry(AttemptOf(w).request, response) in c.world.replies
            && response.signature.key != CoinOf(w).keys.enclave
  {
    hide Next, Known, Reachable;
    var r, s, key := AttemptOf(w).request, Run(FundCmd(p), FinWait), sys.world.nextToken;
    var register := DeliverRegister(RegisterRequest(r.coinId, CapHash(r.cap)));
    KnownWallet(sys, i, w, s);
    FirstAttemptOpens(sys.world, i, w);
    RestartMoves(sys, i, w, s);
    var a := Next(sys, Restart);
    ReregisterMoves(a, i, w, s, register.register);
    var b := Next(a, register);
    SignedAnew(b, i, w, s, r, key);
    moves := [] + [Restart];
    AfterAppend(sys, [], Restart);
    AfterAppend(sys, moves, register);
    moves := moves + [register];
    AfterAppend(sys, moves, DeliverSign(r));
    moves := moves + [DeliverSign(r)];
    response := AnswerUnder(key, r, b.world.nextToken);
  }

  /** No update moves such a wallet, whatever it is fed. */
  lemma NothingMovesIt(cfg: Config, secret: Token, w: WalletState, u: WalletUpdate)
    requires StrayResponse(w) && WalletSafe(w)
    ensures ApplyWallet(cfg, secret, w, u).Ok? ==> OkOr(ApplyWallet(cfg, secret, w, u), w) == w
  {
  }

  lemma SaveLeavesIt(cfg: Config, node: Node)
    requires Safe(cfg, node) && StrayResponse(node.durable.wallet) && node.session.Dirty?
    ensures StepNode(cfg, node, Save).Some? && Or(StepNode(cfg, node, Save), (node, Silent)).0.durable.wallet
            == node.durable.wallet
  {
    hide ApplyWallet, StepSession, StartCommand;
    var s := node.session;
    SaveWrites(cfg, node);
    if s.op.WalletOp? {
      NothingMovesIt(cfg, node.durable.fundingSecret, node.durable.wallet, s.op.update);
    } else {
      OnlyWalletOpsMoveWallets(cfg, node.durable, s.op);
    }
  }

  lemma EventLeavesIt(cfg: Config, node: Node, event: Event)
    requires Safe(cfg, node) && StrayResponse(node.durable.wallet) && StepNode(cfg, node, event).Some?
    ensures Or(StepNode(cfg, node, event), (node, Silent)).0.durable.wallet == node.durable.wallet
  {
    hide Apply, StepSession, Safe, StartCommand, NativeValid;
    if event.Save? {
      SaveLeavesIt(cfg, node);
    }
  }

  lemma MoveLeavesIt(sys: System, i: nat, w: WalletState, move: Move)
    requires Reachable(sys) && IsWallet(sys, i, w) && StrayResponse(w)
    ensures Reachable(Next(sys, move)) && IsWallet(Next(sys, move), i, w)
  {
    hide StepNode, Safe, RegisterWorld, Reachable, StrayResponse;
    NextIsReachable(sys, move);
    if move.WalletMove? && Enabled(sys, move) && move.i == i {
      ReachableIsSafe(sys, i);
      EventLeavesIt(CfgOf(sys, i), NodeOf(sys, i), move.event);
    }
  }

  /** Such a wallet never changes again, whatever happens: the attempt stays pending and the coin stays where it is. */
  lemma {:induction false} StuckForever(sys: System, i: nat, w: WalletState, moves: seq<Move>)
    requires Reachable(sys) && IsWallet(sys, i, w) && StrayResponse(w)
    ensures Reachable(After(sys, moves)) && IsWallet(After(sys, moves), i, w)
    decreases |moves|
  {
    hide Next;
    if moves == [] {
    } else {
      var before := moves[..|moves| - 1];
      StuckForever(sys, i, w, before);
      MoveLeavesIt(After(sys, before), i, w, moves[|moves| - 1]);
    }
  }

  // ---------------------------------------------------------------------------
  // Both, from the very beginning.

  const FIRST: nat := 0
  const SECOND: nat := 1
  const THIRD: nat := 2
  const DEPTH: u32 := 1

  /** Three new wallets on regtest with the explorer backend, and a signer with room for one coin. */
  function Genesis(rank: Txid -> nat): System {
    var cfg := Config(Regtest, Explorer, 1, 10, rank);
    System([cfg, cfg, cfg], [FreshNode(1), FreshNode(2), FreshNode(3)],
           World(1, map[], {}, {}, {}, {}, {}, {}, 4, map[], map[], map[], map[]))
  }

  /** A deposit of a million satoshis, and a policy that funds a coin of 100,000 from it. */
  const DEPOSIT: SourceUtxo := SourceUtxo(OutPoint(ForeignTxid(7), 0), TxOut(1_000_000, P2tr(Point(1))), 3, false)
  const POLICY: FundPolicy := FundPolicy(100_000, 1_000, 2, 5_000)

  lemma {:induction false} GenesisIsReachable(rank: Txid -> nat)
    ensures Initial(Genesis(rank)) && Reachable(Genesis(rank))
  {
    hide Next;
    var trace := [Genesis(rank)];
    assert IsRun(Next, trace) && StateAt(trace, |trace| - 1) == Genesis(rank);
  }

  lemma {:induction false} FundingVsize(source: SourceUtxo, amount: u64, change: u64, keys: CoinKeys, secret: Token)
    ensures Vsize(FundingTx(source, amount, change, keys, secret, PLACEHOLDER)) == 154
  {
    var tx := FundingTx(source, amount, change, keys, secret, PLACEHOLDER);
    TwoOutputs(tx.outputs);
    assert InputsBaseSize(tx.inputs) == 41;
    assert WitnessItemsSize(tx.inputs[0].stack) == 65;
    assert WitnessSize(tx.inputs) == 66;
    assert tx.inputs[0].stack != [];
  }

  lemma DepositPays(keys: CoinKeys)
    ensures BuildSourceFunding(keys, 1, DEPOSIT, POLICY.amount, POLICY.feeRate, POLICY.maxFee).Ok?
  {
    FundingVsize(DEPOSIT, POLICY.amount, 0, keys, 1);
    var fee, change: u64 := 308, 899_692;
    var unsigned := FundingTx(DEPOSIT, POLICY.amount, change, keys, 1, PLACEHOLDER);
    FundingInputsAlwaysValid(DEPOSIT, POLICY.amount, change, keys, 1,
                             SourceSignature(unsigned, 1, 0, [DEPOSIT.output]));
  }

  /** The first wallet registers, and may fund its coin from the deposit. */
  lemma GenesisRegisters(rank: Txid -> nat) returns (moves: seq<Move>, w: WalletState)
    ensures var a := After(Genesis(rank), moves);
            && Reachable(a) && RegisteredAt(a, FIRST, w) && OnlyMoved(Genesis(rank), a, FIRST)
            && MayFund(CfgOf(a, FIRST), NodeOf(a, FIRST).durable, POLICY, DEPOSIT) && a.world.limit == 1
            && NodeOf(a, FIRST).durable.exit.None?
  {
    hide Next, BuildSourceFunding;
    GenesisIsReachable(rank);
    moves, w := RegisterRuns(Genesis(rank), FIRST);
    DepositPays(CoinOf(w).keys);
  }

  lemma StillNew(sys: System, next: System, i: nat, j: nat)
    requires OnlyMoved(sys, next, i) && Newcomer(sys, j) && i != j
    ensures Newcomer(next, j)
  {
  }

  /** And becomes its owner, while the other two are still new. */
  lemma GenesisFunds(rank: Txid -> nat) returns (moves: seq<Move>, v: WalletState)
    ensures var b := After(Genesis(rank), moves);
            && Reachable(b) && OwnerAt(b, FIRST, v) && Newcomer(b, SECOND) && Newcomer(b, THIRD)
            && b.cfgs == Genesis(rank).cfgs
            && ThreeSteps(CfgOf(b, FIRST), CfgOf(b, SECOND), CfgOf(b, THIRD), v, DEPTH)
  {
    hide Next, MayFund, Reachable;
    var registered, w := GenesisRegisters(rank);
    var b;
    b, moves, v := FundsFrom(Genesis(rank), registered, w);
    StillNew(Genesis(rank), b, FIRST, SECOND);
    StillNew(Genesis(rank), b, FIRST, THIRD);
    PolicyIsWide(rank, w, v);
  }

  lemma FundsFrom(sys: System, before: seq<Move>, w: WalletState) returns (b: System, moves: seq<Move>, v: WalletState)
    requires var a := After(sys, before);
             && Reachable(a) && RegisteredAt(a, FIRST, w) && OnlyMoved(sys, a, FIRST)
             && NodeOf(a, FIRST).durable.exit.None?
             && MayFund(CfgOf(a, FIRST), NodeOf(a, FIRST).durable, POLICY, DEPOSIT)
    ensures b == After(sys, moves) && Reachable(b) && OwnerAt(b, FIRST, v) && OnlyMoved(sys, b, FIRST)
    ensures sys.cfgs != [] && FundedBy(CfgOf(sys, FIRST), w, v, POLICY)
  {
    hide Next, MayFund;
    var a := After(sys, before);
    var funding;
    funding, v := FundRuns(a, FIRST, w, POLICY, DEPOSIT);
    AfterConcat(sys, before, funding);
    moves := before + funding;
    b := After(a, funding);
    OnlyMovedTwice(sys, a, b, FIRST);
  }

  lemma PolicyIsWide(rank: Txid -> nat, w: WalletState, v: WalletState)
    requires FundedBy(CfgOf(Genesis(rank), FIRST), w, v, POLICY)
    ensures ThreeSteps(CfgOf(Genesis(rank), FIRST), CfgOf(Genesis(rank), SECOND), CfgOf(Genesis(rank), THIRD), v, DEPTH)
  {
  }

  /** A concrete run from new wallets to a coin that nobody can move. */
  lemma SomeCoinIsStranded(rank: Txid -> nat) returns (moves: seq<Move>, id: Token)
    ensures Initial(Genesis(rank)) && Reachable(After(Genesis(rank), moves))
            && Stranded(After(Genesis(rank), moves), id)
  {
    hide Next;
    GenesisIsReachable(rank);
    var funded, v := GenesisFunds(rank);
    var stranding := OwnerCanStrand(After(Genesis(rank), funded), FIRST, v, SECOND, THIRD, DEPTH);
    AfterConcat(Genesis(rank), funded, stranding);
    moves, id := funded + stranding, CoinOf(v).keys.coinId;
  }

  /** A funding recovery is asked for: journaled, validated again, and sent. */
  lemma FundingIsAskedFor(
      sys: System, i: nat, w: WalletState, p: FundPolicy, source: SourceUtxo)
      returns (moves: seq<Move>, w1: WalletState)
    requires Reachable(sys) && RegisteredAt(sys, i, w) && MayFund(CfgOf(sys, i), NodeOf(sys, i).durable, p, source)
             && sys.world.limit > 0
    ensures Reachable(After(sys, moves)) && AwaitsFirst(After(sys, moves), i, w1, p)
  {
    hide Next, FundingIntact, BuildSourceFunding, Reachable, HasCoin;
    var journaled, drawn;
    journaled, w1, drawn := JournalRuns(sys, i, w, p, source);
    var crashed := CrashMove(sys, i, w1, Run(FundCmd(p), FinStatus), journaled);
    var a := After(sys, crashed);
    JournaledIsIntact(CfgOf(sys, i), w, NodeOf(a, i).durable, p, source, drawn, NodeOf(sys, i).durable);
    var sending := ReachSendFunding(a, i, w1, p, [source]);
    var waiting := SendMove(a, i, w1, FundCmd(p), sending);
    AfterConcat(sys, crashed, waiting);
    moves := crashed + waiting;
    KnownWallet(After(sys, moves), i, w1, Run(FundCmd(p), FinWait));
    FirstAttemptOpens(After(sys, moves).world, i, w1);
  }

  /** So every registered wallet that may fund its coin can also be led astray. */
  lemma FundingGoesAstray(
      sys: System, i: nat, w: WalletState, p: FundPolicy, source: SourceUtxo)
      returns (moves: seq<Move>, w': WalletState)
    requires Reachable(sys) && RegisteredAt(sys, i, w) && MayFund(CfgOf(sys, i), NodeOf(sys, i).durable, p, source)
             && sys.world.limit > 0
    ensures Reachable(After(sys, moves)) && IsWallet(After(sys, moves), i, w') && StrayResponse(w')
  {
    hide *;
    var asking, w1 := FundingIsAskedFor(sys, i, w, p, source);
    var straying;
    straying, w' := RestartGoesAstray(After(sys, asking), i, w1, p);
    AfterConcat(sys, asking, straying);
    moves := asking + straying;
  }

  /** A concrete run from new wallets to a wallet that never changes again, with its first recovery pending. */
  lemma SomeResponseIsStray(rank: Txid -> nat) returns (moves: seq<Move>, w: WalletState)
    ensures Initial(Genesis(rank)) && Reachable(After(Genesis(rank), moves))
    ensures IsWallet(After(Genesis(rank), moves), FIRST, w) && StrayResponse(w)
  {
    hide *;
    GenesisIsReachable(rank);
    var registered, w0 := GenesisRegisters(rank);
    var straying;
    straying, w := FundingGoesAstray(After(Genesis(rank), registered), FIRST, w0, POLICY, DEPOSIT);
    AfterConcat(Genesis(rank), registered, straying);
    moves := registered + straying;
  }
}
