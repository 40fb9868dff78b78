/**
 Any number of wallets, one signer and an asynchronous network between them.
 Every wallet runs the commands of module Driver and may crash at any step;
 messages may be lost, delayed or delivered again; the signer may restart and
 forget everything. What the chain shows is unconstrained.
 */
module Protocol {
  import opened Wrappers
  import opened Bitcoin
  import opened Enclave
  import opened Client
  import opened Transfer
  import opened Wallet
  import opened Driver

  datatype World = World(
    limit: nat,
    coins: Coins,                              // the running signer's map
    sent: set<SignRequest>,                    // every signing request that ever left a wallet
    sentRegs: set<RegisterRequest>,
    replies: set<Entry>,                       // every signing reply that ever left a signer
    regReplies: set<CoinStatus>,
    requests: set<TransferRequest>,            // published transfer requests
    packages: set<(nat, TransferEnvelope)>,    // released envelopes, with their sender
    nextToken: Token,                          // the next random value
    // History variables: nothing above depends on them.
    logs: map<Token, CoinLog>,                 // by signing key, across restarts
    owner: map<Token, nat>,                    // which wallet drew a value
    adopted: map<Token, Token>,                // the signing key a wallet took up for a coin ID
    meta: map<Token, CoinMetadata>)            // the funding output a wallet journaled under a signing key

  datatype System = System(cfgs: seq<Config>, nodes: seq<Node>, world: World)

  datatype Move =
    | WalletMove(i: nat, event: Event)
    | DeliverSign(sign: SignRequest)
    | DeliverRegister(register: RegisterRequest)
    | Restart

  function Draw(token: Token): Drawn {
    Drawn(token, token + 1, token + 2, token + 3)
  }

  ghost predicate Delivered(world: World, envelope: TransferEnvelope) {
    exists s :: (s, envelope) in world.packages
  }

  /** Inputs come from the other parties; chain observations are arbitrary. */
  ghost predicate Honest(world: World, node: Node, event: Event) {
    if event.Start? then
      var cmd, drawn := event.cmd, event.drawn;
      && drawn == Draw(world.nextToken)
      && (cmd.SignCmd? ==> cmd.request in world.requests)
      && (cmd.AcceptCmd? ==> Delivered(world, cmd.envelope))
    else if event.GotStatus? then
      var status, drawn := event.status, event.drawn;
      && drawn == Draw(world.nextToken)
      && StatusOf(world.coins, status.coinId) == Ok(status)
    else if event.GotRegistered? then
      var status := event.status;
      status in world.regReplies
    else if event.GotSigned? then
      var response := event.response;
      && PendingSignRequest(node.durable.wallet).Ok?
      && Entry(PendingSignRequest(node.durable.wallet).value, response) in world.replies
    else if event.Listed? then
      var drawn := event.drawn;
      drawn == Draw(world.nextToken)
    else true
  }

  function Emit(world: World, i: nat, output: Output): World {
    match output
    case Silent => world
    case SentRegister(r) => world.(sentRegs := world.sentRegs + {r})
    case SentSign(r) => world.(sent := world.sent + {r})
    case Published(r) => world.(requests := world.requests + {r})
    case Released(_, envelope) => world.(packages := world.packages + {(i, envelope)})
  }

  function Owned(owner: map<Token, nat>, token: Token, i: nat): map<Token, nat> {
    owner[token := i][token + 1 := i][token + 2 := i][token + 3 := i]
  }

  function Adopt(adopted: map<Token, Token>, w: WalletState): map<Token, Token> {
    if w.coin.Some? && w.coin.value.keys.enclave.Point? && w.coin.value.keys.coinId !in adopted
    then adopted[w.coin.value.keys.coinId := w.coin.value.keys.enclave.secret]
    else adopted
  }

  function NoteFunding(meta: map<Token, CoinMetadata>, w: WalletState): map<Token, CoinMetadata> {
    if w.coin.Some? && w.coin.value.keys.enclave.Point? && w.coin.value.metadata.Some?
       && w.coin.value.keys.enclave.secret !in meta
    then meta[w.coin.value.keys.enclave.secret := w.coin.value.metadata.value]
    else meta
  }

  function AfterWallet(world: World, i: nat, w: WalletState, output: Output): World {
    Emit(world, i, output).(
      nextToken := world.nextToken + 4,
      owner := Owned(world.owner, world.nextToken, i),
      adopted := Adopt(world.adopted, w),
      meta := NoteFunding(world.meta, w))
  }

  ghost predicate Enabled(sys: System, move: Move) {
    match move
    case WalletMove(i, event) =>
      && i < |sys.nodes| && i < |sys.cfgs|
      && Honest(sys.world, sys.nodes[i], event)
      && StepNode(sys.cfgs[i], sys.nodes[i], event).Some?
    case DeliverSign(r) => r in sys.world.sent
    case DeliverRegister(r) => r in sys.world.sentRegs
    case Restart => true
  }

  /** The signer answers: at most one entry is appended to at most one log. */
  function SignWorld(world: World, r: SignRequest): World {
    var (coins, result) := SignWith(world.coins, r, world.nextToken);
    if result.Err? then world
    else
      var key := world.coins[r.coinId].signingKey;
      var e := Entry(r, result.value);
      var logs := if coins == world.coins || key !in world.logs then world.logs
                  else world.logs[key := Append(world.logs[key], e)];
      world.(coins := coins, logs := logs, replies := world.replies + {e}, nextToken := world.nextToken + 1)
  }

  function RegisterWorld(world: World, r: RegisterRequest): World {
    var (coins, result) := RegisterCoin(world.coins, world.limit, r, world.nextToken);
    if result.Err? then world
    else
      var logs := if r.coinId in world.coins then world.logs
                  else world.logs[world.nextToken := CoinLog(r.coinId, r.initialCapHash, [])];
      world.(coins := coins, logs := logs, regReplies := world.regReplies + {result.value},
             nextToken := world.nextToken + 1)
  }

  ghost function Next(sys: System, move: Move): System {
    if !Enabled(sys, move) then sys
    else
      match move
      case WalletMove(i, event) =>
        var next := StepNode(sys.cfgs[i], sys.nodes[i], event).value;
        sys.(nodes := sys.nodes[i := next.0],
             world := AfterWallet(sys.world, i, next.0.durable.wallet, next.1))
      case DeliverSign(r) => sys.(world := SignWorld(sys.world, r))
      case DeliverRegister(r) => sys.(world := RegisterWorld(sys.world, r))
      case Restart => sys.(world := sys.world.(coins := map[]))
  }

  /** New wallets, no coins, nothing sent. */
  ghost predicate Initial(sys: System) {
    && |sys.cfgs| == |sys.nodes|
    && (forall i :: 0 <= i < |sys.nodes| ==>
          && sys.nodes[i] == FreshNode(sys.nodes[i].durable.fundingSecret)
          && sys.nodes[i].durable.fundingSecret < sys.world.nextToken)
    && sys.world.nextToken > INITIAL_HANDOFF
    && sys.world
       == World(sys.world.limit, map[], {}, {}, {}, {}, {}, {}, sys.world.nextToken, map[], map[], map[], map[])
  }

  // Reading a system in statements about it; what is missing reads as a blank.

  function NodeOf(sys: System, i: nat): Node {
    if i < |sys.nodes| then sys.nodes[i] else FreshNode(0)
  }

  function CfgOf(sys: System, i: nat): Config {
    if i < |sys.cfgs| then sys.cfgs[i] else Config(Regtest, Explorer, 0, 0, (txid: Txid) => 0)
  }

  type Transition = (System, Move) -> System

  /** The state a run is in after `k` moves; beyond its ends a blank. */
  function StateAt(trace: seq<System>, k: int): System {
    if 0 <= k < |trace| then trace[k]
    else System([], [], World(0, map[], {}, {}, {}, {}, {}, {}, 0, map[], map[], map[], map[]))
  }

  ghost predicate Linked(next: Transition, trace: seq<System>, k: int) {
    exists move :: StateAt(trace, k + 1) == next(StateAt(trace, k), move)
  }

  /** A run: it starts with new wallets, and one move leads from each state to the next. */
  ghost predicate IsRun(next: Transition, trace: seq<System>) {
    && trace != [] && Initial(StateAt(trace, 0))
    && forall k: int {:trigger Linked(next, trace, k)} :: 0 <= k && k + 1 < |trace| ==> Linked(next, trace, k)
  }

  ghost predicate Reachable(sys: System) {
    exists trace :: IsRun(Next, trace) && StateAt(trace, |trace| - 1) == sys
  }
}
