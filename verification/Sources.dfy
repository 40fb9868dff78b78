/**
 Where every signature of a coin came from: the first one from the wallet that
 registered it, each later one from a published transfer request. From that a
 sender can read in its own history whether a request was used before.
 */
module Sources {
  import opened Wrappers
  import opened Bitcoin
  import opened Enclave
  import opened Client
  import opened Transfer
  import opened Wallet
  import opened Driver
  import opened DriverSafety
  import opened Updates
  import opened Ledger
  import opened Protocol
  import opened Agreement
  import opened Growth
  import opened AgreementSigner
  import opened AgreementUpdates
  import opened AgreementWallet
  import opened AgreementSteps

  /** The request this signature was made for. */
  predicate Names(r: TransferRequest, e: Entry) {
    r.nextCapHash == e.request.nextCapHash && r.withdrawal == PayeeOf(e)
  }

  ghost predicate Requested(world: World, e: Entry) {
    exists r :: r in world.requests && Names(r, e)
  }

  /** The first recovery pays the wallet that registered the coin, a later one whoever asked for it. */
  ghost predicate EntrySourced(world: World, founder: nat, p: nat, e: Entry) {
    if p == 0 then Owns(world.owner, e.request.nextCapHash.cap, founder) && OwnsKey(world.owner, PayeeOf(e), founder)
    else Requested(world, e)
  }

  /** A coin that this wallet registered itself. */
  predicate Founded(w: WalletState) {
    w.coin.Some? && CoinOf(w).acceptedRequest.None?
  }

  ghost predicate LogSourced(world: World, nodes: seq<Node>, log: CoinLog) {
    && log.init.cap in world.owner
    && var founder := world.owner[log.init.cap];
       && founder < |nodes| && Founded(nodes[founder].durable.wallet)
       && forall p {:trigger EntrySourced(world, founder, p, log.entries[p])} :: 0 <= p < |log.entries| ==>
            EntrySourced(world, founder, p, log.entries[p])
  }

  ghost predicate AllSourced(sys: System) {
    forall id {:trigger LogOfId(sys.world, id)} :: id in sys.world.adopted ==>
      LogSourced(sys.world, sys.nodes, LogOfId(sys.world, id))
  }

  // ---------------------------------------------------------------------------
  // It holds in every reachable state.

  lemma EntryStaysSourced(a: World, b: World, founder: nat, p: nat, e: Entry)
    requires Grows(a, b) && EntrySourced(a, founder, p, e)
    ensures EntrySourced(b, founder, p, e)
  {
    if p > 0 {
      var r :| r in a.requests && Names(r, e);
      assert r in b.requests;
    }
  }

  lemma LogStaysSourced(a: World, b: World, nodes: seq<Node>, nodes': seq<Node>, log: CoinLog)
    requires Grows(a, b) && LogSourced(a, nodes, log) && |nodes'| == |nodes|
    requires forall j :: 0 <= j < |nodes| && Founded(nodes[j].durable.wallet) ==> Founded(nodes'[j].durable.wallet)
    ensures LogSourced(b, nodes', log)
  {
    var founder := a.owner[log.init.cap];
    forall p | 0 <= p < |log.entries| ensures EntrySourced(b, founder, p, log.entries[p]) {
      EntryStaysSourced(a, b, founder, p, log.entries[p]);
    }
  }

  /** A log that a wallet has just taken up is empty, and opens with a capability of that wallet. */
  lemma NewLogSourced(world: World, nodes: seq<Node>, i: nat, log: CoinLog)
    requires i < |nodes| && nodes[i].durable.wallet.coin.Some? && HasCoin(world, i, nodes[i].durable.wallet)
    requires log == LogFor(world, CoinOf(nodes[i].durable.wallet)) && log.entries == []
    ensures LogSourced(world, nodes, log)
  {
  }

  lemma SavedLogsSourced(sys: System, next: System, i: nat)
    requires Agrees(sys) && AllSourced(sys) && Agrees(next) && i < |next.nodes|
    requires Grows(sys.world, next.world) && next.world.logs == sys.world.logs && |next.nodes| == |sys.nodes|
    requires next.world.adopted == Adopt(sys.world.adopted, next.nodes[i].durable.wallet)
    requires forall j :: 0 <= j < |sys.nodes| && Founded(sys.nodes[j].durable.wallet) ==>
               Founded(next.nodes[j].durable.wallet)
    ensures AllSourced(next)
  {
    hide HasCoin, MessagesOk, SessionsOk;
    forall id | id in next.world.adopted ensures LogSourced(next.world, next.nodes, LogOfId(next.world, id)) {
      if id in sys.world.adopted {
        assert LogOfId(next.world, id) == LogOfId(sys.world, id);
        LogStaysSourced(sys.world, next.world, sys.nodes, next.nodes, LogOfId(sys.world, id));
      } else {
        assert AdoptedOk(next.world, id) && WalletOk(next.world, i, next.nodes[i].durable.wallet);
        UnadoptedIsEmpty(sys, next.world.adopted[id]);
        NewLogSourced(next.world, next.nodes, i, LogOfId(next.world, id));
      }
    }
  }

  /** What the next signature of a coin is for. */
  lemma PendingSourced(world: World, i: nat, w: WalletState, log: CoinLog, e: Entry)
    requires w.coin.Some? && HasCoin(world, i, w) && log == LogFor(world, CoinOf(w)) && Active(w)
    requires PendingIs(w, e.request) && |CoinOf(w).history| == |log.entries|
    ensures EntrySourced(world, i, |log.entries|, e)
  {
    var a := AttemptOf(w);
    PreparedEntry(MetadataOf(w), a.prepared.withdrawal, a.delay, e.request, e.response);
    if log.entries != [] {
      assert Names(PurposeOf(w).request, e);
    }
  }

  lemma SignedLogSourced(sys: System, b: World, r: SignRequest, e: Entry)
    requires Agrees(sys) && AllSourced(sys) && r in sys.world.sent && Signed(sys.world, b, r, e)
    requires r.coinId in sys.world.adopted && sys.world.adopted[r.coinId] == sys.world.coins[r.coinId].signingKey
    ensures LogSourced(b, sys.nodes, LogOfId(b, r.coinId))
  {
    hide HasCoin, NodesOk, MessagesOk;
    var a, log := sys.world, LogOfId(sys.world, r.coinId);
    SignedGrows(a, b, r, e);
    SentIsAdopted(sys, r);
    var i := a.owner[r.cap];
    assert LogOk(a, a.adopted[r.coinId]);
    OpeningIsPending(a, i, sys.nodes[i].durable.wallet, r);
    PendingSourced(a, i, sys.nodes[i].durable.wallet, log, e);
    LogStaysSourced(a, b, sys.nodes, sys.nodes, log);
    EntryStaysSourced(a, b, i, |log.entries|, e);
    NextEntrySourced(b, sys.nodes, i, log, e);
  }

  lemma NextEntrySourced(b: World, nodes: seq<Node>, i: nat, log: CoinLog, e: Entry)
    requires LogSourced(b, nodes, log) && EntrySourced(b, i, |log.entries|, e)
    requires log.entries == [] ==> b.owner[log.init.cap] == i
    ensures LogSourced(b, nodes, Append(log, e))
  {
    var founder := b.owner[log.init.cap];
    var log' := Append(log, e);
    forall p | 0 <= p < |log'.entries| ensures EntrySourced(b, founder, p, log'.entries[p]) {
      if p < |log.entries| {
        assert EntrySourced(b, founder, p, log.entries[p]);
      }
    }
  }

  lemma SigningKeepsSourced(sys: System, r: SignRequest)
    requires Agrees(sys) && AllSourced(sys) && r in sys.world.sent
    ensures AllSourced(sys.(world := SignWorld(sys.world, r)))
  {
    hide MessagesOk;
    var a, b := sys.world, SignWorld(sys.world, r);
    var e := SignWorldShape(a, r);
    if b != a && Signed(a, b, r, e) {
      SignatureKeepsSourced(sys, b, r, e);
    } else {
      LogsSameSourced(sys, b);
    }
  }

  /** Nothing happens to the logs that were taken up, and no wallet moves. */
  lemma LogsSameSourced(sys: System, b: World)
    requires AdoptionsOk(sys.world) && AllSourced(sys) && Grows(sys.world, b) && b.adopted == sys.world.adopted
    requires forall key :: key in sys.world.logs ==> b.logs[key] == sys.world.logs[key]
    ensures AllSourced(sys.(world := b))
  {
    forall id | id in b.adopted ensures LogSourced(b, sys.nodes, LogOfId(b, id)) {
      assert AdoptedOk(sys.world, id);
      assert LogOfId(b, id) == LogOfId(sys.world, id);
      LogStaysSourced(sys.world, b, sys.nodes, sys.nodes, LogOfId(sys.world, id));
    }
  }

  lemma SignatureKeepsSourced(sys: System, b: World, r: SignRequest, e: Entry)
    requires Agrees(sys) && AllSourced(sys) && r in sys.world.sent && Signed(sys.world, b, r, e)
    ensures AllSourced(sys.(world := b))
  {
    hide HasCoin, NodesOk, MessagesOk;
    var a := sys.world;
    SignedGrows(a, b, r, e);
    SentIsAdopted(sys, r);
    assert LiveOk(a, r.coinId);
    forall id | id in b.adopted ensures LogSourced(b, sys.nodes, LogOfId(b, id)) {
      assert AdoptedOk(a, id);
      if a.adopted[id] == a.coins[r.coinId].signingKey {
        SignedLogSourced(sys, b, r, e);
      } else {
        assert LogOfId(b, id) == LogOfId(a, id);
        LogStaysSourced(a, b, sys.nodes, sys.nodes, LogOfId(a, id));
      }
    }
  }

  lemma RegisteringKeepsSourced(sys: System, r: RegisterRequest)
    requires Agrees(sys) && AllSourced(sys)
    ensures AllSourced(sys.(world := RegisterWorld(sys.world, r)))
  {
    hide NodesOk, MessagesOk;
    var a, b := sys.world, RegisterWorld(sys.world, r);
    RegisterShape(a, r);
    if b != a {
      RegisteredGrows(a, b, r, b.coins[r.coinId].Status(r.coinId));
    }
    LogsSameSourced(sys, b);
  }

  lemma SavingGrows(a: World, i: nat, w: WalletState, output: Output)
    requires DrawsOk(a)
    ensures Grows(a, AfterWallet(a, i, w, output))
  {
  }

  /** A wallet that registered its coin has done so for good. */
  lemma FoundedStays(cfg: Config, node: Node, event: Event)
    requires Safe(cfg, node) && Founded(node.durable.wallet)
    ensures Founded(Step(cfg, node, event).durable.wallet)
  {
    hide Safe, Step;
    StepIsLater(cfg, node, event);
  }

  lemma WalletMoveKeepsSourced(sys: System, i: nat, event: Event)
    requires Agrees(sys) && AllSafe(sys) && AllSourced(sys) && Enabled(sys, WalletMove(i, event))
    ensures AllSourced(Next(sys, WalletMove(i, event)))
  {
    hide StepNode, Agrees, Safe, AllSourced, Founded, Grows, Honest;
    var next := Next(sys, WalletMove(i, event));
    MoveAgrees(sys, i, event);
    WalletMoveGrows(sys, i, event);
    forall j | 0 <= j < |sys.nodes| && Founded(sys.nodes[j].durable.wallet)
      ensures Founded(next.nodes[j].durable.wallet) {
      if j == i {
        assert Safe(sys.cfgs[i], sys.nodes[i]);
        FoundedStays(sys.cfgs[i], sys.nodes[i], event);
      }
    }
    SavedLogsSourced(sys, next, i);
  }

  lemma WalletMoveGrows(sys: System, i: nat, event: Event)
    requires Agrees(sys) && Enabled(sys, WalletMove(i, event))
    ensures Grows(sys.world, Next(sys, WalletMove(i, event)).world)
  {
    hide StepNode, Honest, NodesOk, MessagesOk, Grows;
    var step := StepNode(sys.cfgs[i], sys.nodes[i], event).value;
    SavingGrows(sys.world, i, step.0.durable.wallet, step.1);
  }

  lemma StepKeepsSourced(sys: System, move: Move)
    requires Agrees(sys) && AllSafe(sys) && AllSourced(sys)
    ensures AllSourced(Next(sys, move))
  {
    hide StepNode, AllSafe, Agrees, AllSourced, Honest, SignWorld;
    if Enabled(sys, move) {
      match move
      case WalletMove(i, event) => WalletMoveKeepsSourced(sys, i, event);
      case DeliverSign(r) => SigningKeepsSourced(sys, r);
      case DeliverRegister(r) => RegisteringKeepsSourced(sys, r);
      case Restart => RestartKeepsSourced(sys);
    }
  }

  lemma RestartKeepsSourced(sys: System)
    requires Agrees(sys) && AllSourced(sys)
    ensures AllSourced(sys.(world := sys.world.(coins := map[])))
  {
    hide NodesOk, MessagesOk;
    LogsSameSourced(sys, sys.world.(coins := map[]));
  }

  lemma {:induction false} RunSourced(trace: seq<System>, k: nat)
    requires IsRun(Next, trace) && k < |trace|
    ensures AllSourced(StateAt(trace, k))
  {
    hide Next, AllSafe, Agrees;
    if k == 0 {
    } else {
      RunSourced(trace, k - 1);
      RunAgrees(trace, k - 1);
      assert Linked(Next, trace, k - 1);
      var move :| StateAt(trace, k) == Next(StateAt(trace, k - 1), move);
      StepKeepsSourced(StateAt(trace, k - 1), move);
    }
  }

  /** In every reachable state each signature can be traced to who asked for it. */
  lemma ReachableSourced(sys: System)
    requires Reachable(sys)
    ensures AllSourced(sys)
  {
    hide Next, AllSourced;
    var trace :| IsRun(Next, trace) && StateAt(trace, |trace| - 1) == sys;
    RunSourced(trace, |trace| - 1);
  }

  // ---------------------------------------------------------------------------
  // Reading a reused request off the history.

  /** Who published a request owns its capability and its withdrawal key, and registered no coin. */
  lemma RequestIsOwned(sys: System, r: TransferRequest)
    requires Agrees(sys) && r in sys.world.requests
    ensures var owner := sys.world.owner;
            && r.nextCapHash.cap in owner
            && var i := owner[r.nextCapHash.cap];
               && i < |sys.nodes| && Asked(sys.nodes[i].durable.wallet, r) && OwnsKey(owner, r.withdrawal, i)
               && !Founded(sys.nodes[i].durable.wallet)
               && (sys.nodes[i].durable.wallet.incoming.Some? ==> sys.nodes[i].durable.wallet.coin.None?)
  {
    assert RequestOk(sys.world, sys.nodes, r);
    var i := sys.world.owner[r.nextCapHash.cap];
    assert WalletOk(sys.world, i, sys.nodes[i].durable.wallet);
  }

  /** Two requests with the same capability or the same withdrawal key are the same request. */
  lemma RequestsDiffer(sys: System, r: TransferRequest, s: TransferRequest)
    requires Agrees(sys) && r in sys.world.requests && s in sys.world.requests
    requires r.nextCapHash == s.nextCapHash || r.withdrawal == s.withdrawal
    ensures r == s
  {
    hide Agrees;
    RequestIsOwned(sys, r);
    RequestIsOwned(sys, s);
  }

  /** A signature names a request's capability exactly if its recovery pays that request's key. */
  lemma PaysWhenNamed(sys: System, id: Token, p: nat, r: TransferRequest)
    requires Agrees(sys) && AllSourced(sys) && id in sys.world.adopted && r in sys.world.requests
    requires p < |LogOfId(sys.world, id).entries|
    ensures var log := LogOfId(sys.world, id);
            && (PayeeOf(log.entries[p]) == r.withdrawal <==> log.entries[p].request.nextCapHash == r.nextCapHash)
            && log.init != r.nextCapHash
  {
    hide Agrees;
    var log := LogOfId(sys.world, id);
    var e, founder := log.entries[p], sys.world.owner[log.init.cap];
    assert EntrySourced(sys.world, founder, p, e);
    RequestIsOwned(sys, r);
    if p > 0 {
      var s :| s in sys.world.requests && Names(s, e);
      if PayeeOf(e) == r.withdrawal || e.request.nextCapHash == r.nextCapHash {
        RequestsDiffer(sys, r, s);
      }
    }
  }

  /** An earlier recovery among the first `m` pays this key. */
  ghost predicate PaidBefore(log: CoinLog, m: int, key: PubKey) {
    exists p :: 0 <= p < m && p < |log.entries| && PayeeOf(log.entries[p]) == key
  }

  /** A request's capability was spent exactly if some recovery but the newest pays the request's key. */
  lemma SpentWhenPaid(sys: System, id: Token, r: TransferRequest)
    requires Agrees(sys) && AllSourced(sys) && id in sys.world.adopted && r in sys.world.requests
    ensures var log := LogOfId(sys.world, id);
            UsedCap(log, r.nextCapHash.cap) <==> PaidBefore(log, |log.entries| - 1, r.withdrawal)
  {
    hide Agrees, AllSourced;
    var log := LogOfId(sys.world, id);
    LogIsChained(sys, id);
    if UsedCap(log, r.nextCapHash.cap) {
      var p :| 0 <= p < |log.entries| && log.entries[p].request.cap == r.nextCapHash.cap;
      PaysWhenNamed(sys, id, if p == 0 then 0 else p - 1, r);
      assert EntryAuthorized(sys.world.adopted[id], log, p);
      assert PayeeOf(log.entries[p - 1]) == r.withdrawal;
    }
    if PaidBefore(log, |log.entries| - 1, r.withdrawal) {
      var p :| 0 <= p < |log.entries| - 1 && PayeeOf(log.entries[p]) == r.withdrawal;
      PaysWhenNamed(sys, id, p, r);
      assert EntryAuthorized(sys.world.adopted[id], log, p + 1);
      assert log.entries[p + 1].request.cap == r.nextCapHash.cap;
    }
  }

  lemma LogIsChained(sys: System, id: Token)
    requires Agrees(sys) && id in sys.world.adopted
    ensures id in sys.world.adopted && sys.world.adopted[id] in sys.world.logs
    ensures Chained(sys.world.adopted[id], LogOfId(sys.world, id))
  {
    hide NodesOk, MessagesOk;
    assert AdoptedOk(sys.world, id) && LogOk(sys.world, sys.world.adopted[id]);
  }
}
