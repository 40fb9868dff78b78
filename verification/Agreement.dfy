/**
 What wallets, messages and the signer's log agree on in every reachable state
 of the joint system. Everything a wallet believes about its coin is stated
 against the log of the signing key it took up.
 */
module Agreement {
  import opened Wrappers
  import opened Bitcoin
  import opened Enclave
  import opened Client
  import opened Transfer
  import opened Validation
  import opened Wallet
  import opened Driver
  import opened DriverSafety
  import opened Ledger
  import opened Protocol

  // ---------------------------------------------------------------------------
  // One wallet against one log.

  function Key(coin: WalletCoin): Token {
    if coin.keys.enclave.Point? then coin.keys.enclave.secret else 0
  }

  function Owns(owner: map<Token, nat>, token: Token, i: nat): bool {
    token in owner && owner[token] == i
  }

  /** Keys, signing key and funding output are the ones the system knows for this coin ID. */
  ghost predicate CoinBase(world: World, coin: WalletCoin) {
    && coin.keys.enclave == Point(Key(coin))
    && coin.keys.client == Point(coin.clientSecret) && coin.keys.client != coin.keys.enclave
    && coin.keys.coinId in world.adopted && world.adopted[coin.keys.coinId] == Key(coin)
    && Key(coin) in world.logs && world.logs[Key(coin)].coinId == coin.keys.coinId
    && (coin.metadata.Some? <==> Key(coin) in world.meta)
    && (coin.metadata.Some? ==> coin.metadata.value == world.meta[Key(coin)] && coin.metadata.value.keys == coin.keys)
  }

  function LogFor(world: World, coin: WalletCoin): CoinLog {
    if Key(coin) in world.logs then world.logs[Key(coin)] else CoinLog(0, CapHash(0), [])
  }

  ghost predicate UsedCap(log: CoinLog, cap: Token) {
    exists p :: 0 <= p < |log.entries| && log.entries[p].request.cap == cap
  }

  ghost predicate InLog(log: CoinLog, r: SignRequest) {
    exists p :: 0 <= p < |log.entries| && log.entries[p].request == r
  }

  /** The wallet's capability and handoff open the commitment after the signatures its history shows. */
  ghost predicate Holding(log: CoinLog, coin: WalletCoin) {
    var n := |coin.history|;
    && coin.currentCap.Some? && coin.currentHandoff.Some? && coin.outgoing.None?
    && n <= |log.entries|
    && AuthAt(log, n) == Authorization(coin.keys.coinId, CapHash(coin.currentCap.value), coin.currentHandoff.value)
    && coin.history == Recoveries(log.entries[..n])
    && (forall p :: 0 <= p < n ==> log.entries[p].request.cap != coin.currentCap.value)
    && (n > 0 ==> coin.withdrawalIndex == Some(n - 1) && OwnsLast(coin))
  }

  ghost predicate OwnsLast(coin: WalletCoin) {
    coin.history != [] && coin.withdrawalSecret.Some? && Point(coin.withdrawalSecret.value)
        == Last(coin.history).withdrawal
  }

  /** The journaled attempt asks for the canonical next recovery and opens what this wallet holds. */
  ghost predicate AttemptOk(log: CoinLog, coin: WalletCoin, a: RecoveryAttempt) {
    var n := |coin.history|;
    var p := a.prepared;
    && coin.metadata.Some?
    && a.expectedCount == n && n <= |log.entries|
    && Opened(a.request) == AuthAt(log, n)
    && coin.currentCap == Some(a.request.cap)
    && a.request.nextCapHash != CapHash(a.request.cap)
    && p.request == a.request && p.metadata == coin.metadata.value && p.delay == a.delay
    && CanonicalRecovery(p.metadata.outpoint, p.metadata.amount, p.withdrawal, p.delay) == Ok(p.tx)
    && a.request.sighash == RecoverySighash(p.tx, p.metadata.amount, p.metadata.keys)
    && (n > 0 ==> Last(coin.history).delay == a.delay + DELAY_STEP)
  }

  ghost predicate PurposeOk(
      owner: map<Token, nat>, requests: set<TransferRequest>, i: nat, w: WalletState, purpose: RecoveryPurpose,
      a: RecoveryAttempt) {
    match purpose
    case Fund(nextCap, secret) =>
      && CoinOf(w).history == []
      && a.request.nextCapHash == CapHash(nextCap) && Owns(owner, nextCap, i)
      && a.prepared.withdrawal == Point(secret) && Owns(owner, secret, i)
    case Transfer(request) =>
      && CoinOf(w).history != []
      && request in requests
      && a.request.nextCapHash == request.nextCapHash && a.prepared.withdrawal == request.withdrawal
      && request.coinId == CoinOf(w).keys.coinId
  }

  /** The signer is exactly where the wallet left it, or one signature further: that of the journaled attempt. */
  ghost predicate PositionOk(log: CoinLog, coin: WalletCoin, a: RecoveryAttempt) {
    var n := |coin.history|;
    || |log.entries| == n
    || (|log.entries| == n + 1 && log.entries[n].request == a.request)
  }

  ghost predicate PendingOk(world: World, i: nat, log: CoinLog, w: WalletState) {
    match w.pending
    case None => |log.entries| == |CoinOf(w).history|
    case Some(PendingRegistration(_, _, _)) => false
    case Some(PendingRecovery(purpose, stage)) =>
      && AttemptOk(log, CoinOf(w), stage.attempt)
      && PurposeOk(world.owner, world.requests, i, w, purpose, stage.attempt)
      && PositionOk(log, CoinOf(w), stage.attempt)
      && (stage.Responded? ==> Entry(stage.attempt.request, stage.response) in world.replies)
  }

  /** A coin that was sent on: the package carries a prefix of the log, the wallet keeps its own entry of it. */
  ghost predicate Gone(log: CoinLog, coin: WalletCoin) {
    && coin.currentCap.None? && coin.currentHandoff.None? && coin.outgoing.Some? && coin.metadata.Some?
    && PackageCarries(log, coin)
    && KeepsOwn(log, coin)
  }

  ghost predicate PackageCarries(log: CoinLog, coin: WalletCoin) {
    && coin.outgoing.Some? && coin.metadata.Some?
    && var request, envelope, m := coin.outgoing.value.request, coin.outgoing.value.envelope, coin.metadata.value;
       var payload := envelope.ciphertext.payload;
       var q := |payload.history|;
    && 2 <= q <= |log.entries|
    && payload.history == Recoveries(log.entries[..q])
    && payload.metadata == m && payload.clientSecret == coin.clientSecret
    && AuthAt(log, q) == Authorization(coin.keys.coinId, request.nextCapHash, payload.handoff)
    && envelope.ciphertext.aad == request
    && request.coinId == coin.keys.coinId && request.network == m.network
    && request.outpoint == m.outpoint && request.amount == m.amount
    && Last(payload.history).withdrawal == request.withdrawal
  }

  ghost predicate KeepsOwn(log: CoinLog, coin: WalletCoin) {
    && coin.outgoing.Some?
    && var q := |coin.outgoing.value.envelope.ciphertext.payload.history|;
    && 2 <= q <= |log.entries|
    && coin.history == [RecoveryOf(log.entries[q - 2])] && coin.withdrawalIndex == Some(0) && OwnsLast(coin)
  }

  /** The wallet signed the last entry of the package it released. */
  ghost predicate SentOn(world: World, i: nat, log: CoinLog, coin: WalletCoin) {
    && coin.outgoing.Some?
    && coin.outgoing.value.request in world.requests
    && var q := |coin.outgoing.value.envelope.ciphertext.payload.history|;
       0 < q <= |log.entries| && Owns(world.owner, log.entries[q - 1].request.cap, i)
  }

  /** An accepted request's capability is still current or was spent in the log. */
  ghost predicate AcceptedOk(log: CoinLog, coin: WalletCoin) {
    coin.acceptedRequest.Some? ==>
      var r := coin.acceptedRequest.value;
      && r.coinId == coin.keys.coinId
      && (coin.currentCap == Some(r.nextCapHash.cap) || UsedCap(log, r.nextCapHash.cap))
  }

  /** This wallet drew the private key of this point. */
  predicate OwnsKey(owner: map<Token, nat>, key: PubKey, i: nat) {
    key.Point? && Owns(owner, key.secret, i)
  }

  /** A coin that came by transfer is recovered to the key its request named. */
  predicate CameByRequest(owner: map<Token, nat>, i: nat, coin: WalletCoin) {
    coin.acceptedRequest.Some? ==>
      coin.history != [] && OwnsKey(owner, coin.acceptedRequest.value.withdrawal, i)
  }

  ghost predicate IncomingOk(owner: map<Token, nat>, i: nat, incoming: IncomingTransfer) {
    && Owns(owner, incoming.cap, i) && Owns(owner, incoming.withdrawalSecret, i)
    && incoming.request.nextCapHash == CapHash(incoming.cap)
    && incoming.request.withdrawal == Point(incoming.withdrawalSecret)
    && incoming.request.transportKey == Point(incoming.transportSecret)
    && incoming.request.Validate().Ok?
  }

  ghost predicate NoCoin(world: World, i: nat, w: WalletState) {
    && (w.incoming.Some? ==> w.pending.None? && IncomingOk(world.owner, i, IncomingOf(w)))
    && (w.pending.Some? ==>
          && w.pending.value.PendingRegistration?
          && var r := w.pending.value.registration.request;
             && w.pending.value.registration.client == Point(w.pending.value.clientSecret)
             && r.initialCapHash == CapHash(w.pending.value.initialCap)
             && Owns(world.owner, w.pending.value.initialCap, i)
             && Owns(world.owner, r.coinId, i) && r.coinId !in world.adopted)
  }

  ghost predicate HasCoin(world: World, i: nat, w: WalletState) {
    var coin := CoinOf(w);
    && w.incoming.None?
    && CoinBase(world, coin)
    && var log := LogFor(world, coin);
       && AcceptedOk(log, coin) && CameByRequest(world.owner, i, coin)
       && if coin.currentCap.Some? then
            Holding(log, coin) && Owns(world.owner, coin.currentCap.value, i) && PendingOk(world, i, log, w)
          else
            Gone(log, coin) && SentOn(world, i, log, coin) && w.pending.None?
  }

  ghost predicate WalletOk(world: World, i: nat, w: WalletState) {
    if w.coin.None? then NoCoin(world, i, w) else HasCoin(world, i, w)
  }

  // ---------------------------------------------------------------------------
  // The signer and the log.

  ghost predicate LogOk(world: World, key: Token) {
    && key in world.logs && 0 < key < world.nextToken
    && var log := world.logs[key];
    && Chained(key, log) && FreshHandoffs(log)
    && (forall p :: 0 <= p < |log.entries| ==>
          log.entries[p].response.nextHandoff < world.nextToken && log.entries[p].request in world.sent)
  }

  ghost predicate MetaOk(world: World, key: Token) {
    && key in world.meta
    && var keys := world.meta[key].keys;
    && keys.enclave == Point(key) && keys.client != Point(key)
    && keys.coinId in world.adopted && world.adopted[keys.coinId] == key
  }

  ghost predicate AdoptedOk(world: World, id: Token) {
    && id in world.adopted
    && var key := world.adopted[id];
    && id in world.owner && key in world.logs && world.logs[key].coinId == id
    && (world.logs[key].entries != [] ==>
          key in world.meta && MetaOk(world, key) && GoodLog(world.meta[key], world.logs[key]))
  }

  ghost predicate LiveOk(world: World, id: Token) {
    && id in world.coins
    && var key := world.coins[id].signingKey;
    key in world.logs && Explains(world.logs[key], id, world.coins[id])
  }

  // The quantifiers below are triggered by the predicate they are about alone:
  // a proof names the element it needs.

  ghost predicate LogsOk(world: World) {
    forall key {:trigger LogOk(world, key)} :: key in world.logs ==> LogOk(world, key)
  }

  ghost predicate MetasOk(world: World) {
    forall key {:trigger MetaOk(world, key)} :: key in world.meta ==> MetaOk(world, key)
  }

  ghost predicate AdoptionsOk(world: World) {
    forall id {:trigger AdoptedOk(world, id)} :: id in world.adopted ==> AdoptedOk(world, id)
  }

  ghost predicate CoinsOk(world: World) {
    forall id {:trigger LiveOk(world, id)} :: id in world.coins ==> LiveOk(world, id)
  }

  ghost predicate DrawsOk(world: World) {
    0 < world.nextToken && forall token :: token in world.owner ==> token < world.nextToken
  }

  ghost predicate WorldOk(world: World) {
    LogsOk(world) && MetasOk(world) && AdoptionsOk(world) && CoinsOk(world) && DrawsOk(world)
  }

  predicate Live(world: World, id: Token, key: Token) {
    id in world.coins && world.coins[id].signingKey == key
  }

  /** A status some signer really had: a point of some log. */
  ghost predicate StatusOk(world: World, status: CoinStatus) {
    && status.signingKey.Point? && status.signingKey.secret in world.logs
    && var log := world.logs[status.signingKey.secret];
       log.coinId == status.coinId && status.count <= |log.entries| && status.authorization == AuthAt(log, status.count)
  }

  /** A reply is an entry of the log of the key it is signed with; a key nobody took up means the other one is dead. */
  ghost predicate ReplyOk(world: World, e: Entry) {
    && e.response.signature.key.Point? && e.response.signature.key.secret in world.logs
    && e in world.logs[e.response.signature.key.secret].entries
    && e.request.coinId in world.adopted
    && (e.response.signature.key.secret != world.adopted[e.request.coinId] ==>
          !Live(world, e.request.coinId, world.adopted[e.request.coinId]))
  }

  // ---------------------------------------------------------------------------
  // Messages against the wallets they come from.

  predicate PendingIs(w: WalletState, r: SignRequest) {
    PendingSignRequest(w) == Ok(r)
  }

  /** A request on the wire is journaled by the wallet that owns its capability, or already signed. */
  ghost predicate SentBy(world: World, w: WalletState, r: SignRequest) {
    && w.coin.Some? && CoinOf(w).keys.coinId == r.coinId && Key(CoinOf(w)) in world.logs
    && (PendingIs(w, r) || InLog(LogFor(world, CoinOf(w)), r))
  }

  ghost predicate SentOk(world: World, nodes: seq<Node>, r: SignRequest) {
    r.cap in world.owner && world.owner[r.cap] < |nodes| && SentBy(world, nodes[world.owner[r.cap]].durable.wallet, r)
  }

  predicate Asked(w: WalletState, r: TransferRequest) {
    || (w.incoming.Some? && IncomingOf(w).request == r)
    || (w.coin.Some? && CoinOf(w).acceptedRequest == Some(r))
  }

  ghost predicate RequestOk(world: World, nodes: seq<Node>, r: TransferRequest) {
    var cap := r.nextCapHash.cap;
    cap in world.owner && world.owner[cap] < |nodes| && Asked(nodes[world.owner[cap]].durable.wallet, r)
  }

  predicate Sender(w: WalletState, envelope: TransferEnvelope) {
    w.coin.Some? && CoinOf(w).outgoing.Some? && OutgoingOf(w).envelope == envelope
  }

  ghost predicate PackageOk(nodes: seq<Node>, package: (nat, TransferEnvelope)) {
    package.0 < |nodes| && Sender(nodes[package.0].durable.wallet, package.1)
  }

  predicate Active(w: WalletState) {
    w.coin.Some? && CoinOf(w).currentCap.Some?
  }

  /** Two wallets never both show a capability for the same coin. */
  ghost predicate Unique(nodes: seq<Node>) {
    forall i, j {:trigger BothActive(nodes[i].durable.wallet, nodes[j].durable.wallet)} ::
      0 <= i < |nodes| && 0 <= j < |nodes| && i != j ==> !BothActive(nodes[i].durable.wallet, nodes[j].durable.wallet)
  }

  predicate BothActive(a: WalletState, b: WalletState) {
    Active(a) && Active(b) && CoinOf(a).keys.coinId == CoinOf(b).keys.coinId
  }

  /** A capability this wallet has not spent: current, the next one of a pending funding, or an incoming one. */
  predicate Holds(w: WalletState, id: Token, cap: Token) {
    || (w.coin.Some? && CoinOf(w).keys.coinId == id
        && (CoinOf(w).currentCap == Some(cap)
            || (w.pending.Some? && w.pending.value.PendingRecovery? && PurposeOf(w).Fund?
                && PurposeOf(w).nextCap == cap)))
    || (w.incoming.Some? && IncomingOf(w).cap == cap && IncomingOf(w).request.coinId == id)
  }

  /** The capability that opens the commitment in force for a coin ID. */
  function LiveCap(world: World, id: Token): Token {
    LiveAuth(LogOfId(world, id)).capHash.cap
  }

  /** The log of the signing key that was taken up for this coin ID. */
  function LogOfId(world: World, id: Token): CoinLog {
    if id in world.adopted && world.adopted[id] in world.logs then world.logs[world.adopted[id]]
    else CoinLog(0, CapHash(0), [])
  }

  ghost predicate HolderOk(world: World, nodes: seq<Node>, id: Token) {
    var cap := LiveCap(world, id);
    && cap in world.owner && world.owner[cap] < |nodes|
    && (UsedCap(LogOfId(world, id), cap) || Holds(nodes[world.owner[cap]].durable.wallet, id, cap))
  }

  // ---------------------------------------------------------------------------
  // Running commands.

  ghost predicate CmdOk(world: World, cmd: Command) {
    && (cmd.SignCmd? ==> cmd.request in world.requests)
    && (cmd.AcceptCmd? ==> Delivered(world, cmd.envelope))
  }

  ghost predicate PcOk(world: World, pc: Pc) {
    && (pc.FundSource? || pc.SignObserve? ==> StatusOk(world, pc.status))
  }

  ghost predicate OpOk(world: World, i: nat, w: WalletState, op: Update) {
    op.WalletOp? ==>
      if op.update.BeginRegister? then
        var cap, id := op.update.cap, op.update.coinId;
        Owns(world.owner, cap, i) && Owns(world.owner, id, i) && id !in world.adopted
      else if op.update.FinishRegister? then
        var status := op.update.status;
        StatusOk(world, status)
      else if op.update.BeginFund? then
        var status, nextCap, secret := op.update.status, op.update.nextCap, op.update.withdrawalSecret;
        StatusOk(world, status) && Owns(world.owner, nextCap, i) && Owns(world.owner, secret, i)
      else if op.update.JournalAttempt? then
        var status, nextCap, secret := op.update.status, op.update.nextCap, op.update.withdrawalSecret;
        StatusOk(world, status) && Owns(world.owner, nextCap, i) && Owns(world.owner, secret, i)
      else if op.update.Record? then
        var response := op.update.response;
        PendingSignRequest(w).Ok? && Entry(PendingSignRequest(w).value, response) in world.replies
      else if op.update.Ask? then
        var drawn := op.update.drawn;
        Owns(world.owner, drawn.b, i) && Owns(world.owner, drawn.c, i)
      else if op.update.Begin? then
        var request, status := op.update.request, op.update.status;
        StatusOk(world, status) && request in world.requests
      else if op.update.Accept? then
        var envelope := op.update.envelope;
        Delivered(world, envelope)
      else true
  }

  ghost predicate SessionOk(world: World, i: nat, node: Node) {
    match node.session
    case Idle => true
    case Run(cmd, pc) => CmdOk(world, cmd) && PcOk(world, pc)
    case Dirty(cmd, next, op, _) => CmdOk(world, cmd) && PcOk(world, next) && OpOk(world, i, node.durable.wallet, op)
  }

  // ---------------------------------------------------------------------------
  // All of it.

  ghost predicate WalletsOk(world: World, nodes: seq<Node>) {
    forall i {:trigger WalletOk(world, i, nodes[i].durable.wallet)} ::
      0 <= i < |nodes| ==> WalletOk(world, i, nodes[i].durable.wallet)
  }

  ghost predicate SessionsOk(world: World, nodes: seq<Node>) {
    forall i {:trigger SessionOk(world, i, nodes[i])} :: 0 <= i < |nodes| ==> SessionOk(world, i, nodes[i])
  }

  ghost predicate NodesOk(sys: System) {
    && |sys.cfgs| == |sys.nodes|
    && WalletsOk(sys.world, sys.nodes) && SessionsOk(sys.world, sys.nodes) && Unique(sys.nodes)
  }

  ghost predicate AllSent(world: World, nodes: seq<Node>) {
    forall r {:trigger SentOk(world, nodes, r)} :: r in world.sent ==> SentOk(world, nodes, r)
  }

  ghost predicate AllRequests(world: World, nodes: seq<Node>) {
    forall r {:trigger RequestOk(world, nodes, r)} :: r in world.requests ==> RequestOk(world, nodes, r)
  }

  ghost predicate AllPackages(world: World, nodes: seq<Node>) {
    forall package {:trigger PackageOk(nodes, package)} :: package in world.packages ==> PackageOk(nodes, package)
  }

  ghost predicate AllReplies(world: World) {
    forall e {:trigger ReplyOk(world, e)} :: e in world.replies ==> ReplyOk(world, e)
  }

  ghost predicate AllStatuses(world: World) {
    forall status {:trigger StatusOk(world, status)} :: status in world.regReplies ==> StatusOk(world, status)
  }

  ghost predicate AllHolders(world: World, nodes: seq<Node>) {
    forall id {:trigger HolderOk(world, nodes, id)} ::
      id in world.adopted && world.adopted[id] in world.logs ==> HolderOk(world, nodes, id)
  }

  ghost predicate MessagesOk(world: World, nodes: seq<Node>) {
    && AllSent(world, nodes) && AllRequests(world, nodes) && AllPackages(world, nodes)
    && AllReplies(world) && AllStatuses(world) && AllHolders(world, nodes)
  }

  /** Every wallet also keeps the invariant of module DriverSafety. */
  ghost predicate AllSafe(sys: System) {
    |sys.cfgs| == |sys.nodes|
    && forall i {:trigger Safe(sys.cfgs[i], sys.nodes[i])} :: 0 <= i < |sys.nodes| ==> Safe(sys.cfgs[i], sys.nodes[i])
  }

  /** What completing and opening a package need: it fits, and it is sealed to its request. */
  ghost predicate Fits(w: WalletState) {
    && (w.pending.Some? && w.pending.value.PendingRecovery? && PurposeOf(w).Transfer? ==>
          var a := AttemptOf(w);
          && w.coin.Some? && CoinOf(w).metadata.Some?
          && a.request == a.prepared.request
          && ValidateOutgoingRequest(w, MetadataOf(w).network, PurposeOf(w).request).Ok?
          && AttemptFits(MetadataOf(w), CoinOf(w).history, a.prepared))
    && (w.coin.Some? && CoinOf(w).outgoing.Some? ==>
          var out := OutgoingOf(w);
          && out.envelope.ephemeral.Point?
          && EncryptTransfer(out.request, out.envelope.ciphertext.payload, out.envelope.ephemeral.secret,
                             out.envelope.nonce)
             == Ok(out.envelope))
  }

  ghost predicate AllFit(nodes: seq<Node>) {
    forall i {:trigger Fits(nodes[i].durable.wallet)} :: 0 <= i < |nodes| ==> Fits(nodes[i].durable.wallet)
  }

  ghost predicate Agrees(sys: System) {
    NodesOk(sys) && WorldOk(sys.world) && MessagesOk(sys.world, sys.nodes)
  }
}
