/** Every wallet event keeps the joint agreement. */
module AgreementWallet {
  import opened Wrappers
  import opened Bitcoin
  import opened Enclave
  import opened Client
  import opened Transfer
  import opened Validation
  import opened Funding
  import opened Wallet
  import opened Driver
  import opened DriverSafety
  import opened Updates
  import opened Ledger
  import opened Protocol
  import opened Agreement
  import opened Growth
  import opened AgreementUpdates
  import opened AgreementSigner

  // ---------------------------------------------------------------------------
  // One wallet changes, the rest of the system stays.

  function Moved(nodes: seq<Node>, i: nat, node: Node): seq<Node> {
    if i < |nodes| then nodes[i := node] else nodes
  }

  lemma SentCarried(a: World, b: World, nodes: seq<Node>, i: nat, node: Node)
    requires i < |nodes| && AllSent(a, nodes) && Grows(a, b) && b.sent == a.sent
    requires Carries(a, nodes[i].durable.wallet, node.durable.wallet)
    ensures AllSent(b, Moved(nodes, i, node))
  {
    var nodes' := Moved(nodes, i, node);
    forall r | r in b.sent ensures SentOk(b, nodes', r) {
      assert SentOk(a, nodes, r);
      var j := a.owner[r.cap];
      SentByGrows(a, b, nodes[j].durable.wallet, r);
      if j == i {
        SentByCarried(a, b, nodes[i].durable.wallet, node.durable.wallet, r);
      }
    }
  }

  lemma SentByCarried(a: World, b: World, w: WalletState, w': WalletState, r: SignRequest)
    requires Carries(a, w, w') && Grows(a, b) && SentBy(a, w, r)
    ensures SentBy(b, w', r)
  {
    var log := LogFor(a, CoinOf(w));
    if InLog(log, r) {
      InLogGrows(log, LogFor(b, CoinOf(w)), r);
    }
  }

  lemma RequestsCarried(a: World, b: World, nodes: seq<Node>, i: nat, node: Node)
    requires i < |nodes| && AllRequests(a, nodes) && Grows(a, b) && b.requests == a.requests
    requires Carries(a, nodes[i].durable.wallet, node.durable.wallet)
    ensures AllRequests(b, Moved(nodes, i, node))
  {
    forall r | r in b.requests ensures RequestOk(b, Moved(nodes, i, node), r) {
      assert RequestOk(a, nodes, r);
    }
  }

  lemma PackagesCarried(a: World, b: World, nodes: seq<Node>, i: nat, node: Node)
    requires i < |nodes| && AllPackages(a, nodes) && b.packages == a.packages
    requires Carries(a, nodes[i].durable.wallet, node.durable.wallet)
    ensures AllPackages(b, Moved(nodes, i, node))
  {
    forall package | package in b.packages ensures PackageOk(Moved(nodes, i, node), package) {
      assert PackageOk(nodes, package);
    }
  }

  lemma RepliesCarried(a: World, b: World)
    requires AllReplies(a) && Grows(a, b) && b.replies == a.replies && b.coins == a.coins
    ensures AllReplies(b)
  {
    forall e | e in b.replies ensures ReplyOk(b, e) { assert ReplyOk(a, e); }
  }

  lemma StatusesCarried(a: World, b: World)
    requires AllStatuses(a) && Grows(a, b) && b.regReplies == a.regReplies
    ensures AllStatuses(b)
  {
    forall status | status in b.regReplies ensures StatusOk(b, status) {
      assert StatusOk(a, status);
      StatusGrows(a, b, status);
    }
  }

  lemma HolderCarried(a: World, b: World, nodes: seq<Node>, i: nat, node: Node, id: Token)
    requires i < |nodes| && Grows(a, b) && b.logs == a.logs
    requires id in a.adopted && AdoptedOk(a, id) && HolderOk(a, nodes, id)
    requires WalletOk(a, i, nodes[i].durable.wallet)
    requires Carries(a, nodes[i].durable.wallet, node.durable.wallet)
    ensures HolderOk(b, Moved(nodes, i, node), id)
  {
    hide WalletOk, GoodLog, Carries;
    var cap := LiveCap(a, id);
    assert LiveCap(b, id) == cap;
    if a.owner[cap] == i && !UsedCap(a.logs[a.adopted[id]], cap) {
      HoldsCarried(a, nodes[i].durable.wallet, node.durable.wallet, i, id, cap);
    }
  }

  lemma HoldsCarried(a: World, w: WalletState, w': WalletState, i: nat, id: Token, cap: Token)
    requires WalletOk(a, i, w) && Carries(a, w, w') && Holds(w, id, cap)
    requires id in a.adopted && a.adopted[id] in a.logs && !UsedCap(a.logs[a.adopted[id]], cap)
    ensures Holds(w', id, cap)
  {
  }

  lemma HoldersCarried(a: World, b: World, nodes: seq<Node>, i: nat, node: Node)
    requires i < |nodes| && AllHolders(a, nodes) && AdoptionsOk(a) && Grows(a, b) && b.logs == a.logs
    requires WalletOk(a, i, nodes[i].durable.wallet)
    requires Carries(a, nodes[i].durable.wallet, node.durable.wallet)
    requires forall id :: id in b.adopted && id !in a.adopted && b.adopted[id] in b.logs ==>
               HolderOk(b, Moved(nodes, i, node), id)
    ensures AllHolders(b, Moved(nodes, i, node))
  {
    hide WalletOk, AdoptedOk;
    forall id | id in b.adopted && b.adopted[id] in b.logs ensures HolderOk(b, Moved(nodes, i, node), id) {
      if id in a.adopted {
        assert AdoptedOk(a, id) && HolderOk(a, nodes, id);
        HolderCarried(a, b, nodes, i, node, id);
      }
    }
  }

  lemma MessagesCarried(a: World, b: World, nodes: seq<Node>, i: nat, node: Node)
    requires i < |nodes| && MessagesOk(a, nodes) && AdoptionsOk(a) && Saved(a, b, node.durable.wallet)
    requires WalletOk(a, i, nodes[i].durable.wallet)
    requires Carries(a, nodes[i].durable.wallet, node.durable.wallet)
    requires forall id :: id in b.adopted && id !in a.adopted && b.adopted[id] in b.logs ==>
               HolderOk(b, Moved(nodes, i, node), id)
    ensures MessagesOk(b, Moved(nodes, i, node))
  {
    hide WalletOk, AdoptionsOk, PackageOk;
    SentCarried(a, b, nodes, i, node);
    RequestsCarried(a, b, nodes, i, node);
    PackagesCarried(a, b, nodes, i, node);
    RepliesCarried(a, b);
    StatusesCarried(a, b);
    HoldersCarried(a, b, nodes, i, node);
  }

  // ---------------------------------------------------------------------------
  // The other wallets.

  /** No other wallet is at the position that `w'` moves in. */
  predicate Alone(w': WalletState, other: WalletState) {
    && !BothActive(w', other)
    && (SameCoin(w', other) && CoinOf(w').metadata.Some? ==> CoinOf(other).metadata.Some?)
  }

  predicate SameCoin(w: WalletState, other: WalletState) {
    w.coin.Some? && other.coin.Some? && CoinOf(other).keys.coinId == CoinOf(w).keys.coinId
  }

  /** A wallet that kept its coin stays alone with it. */
  lemma StaysAlone(a: World, i: nat, w: WalletState, w': WalletState, j: nat, other: WalletState)
    requires WalletOk(a, i, w) && WalletOk(a, j, other) && Carries(a, w, w') && w.coin.Some?
    requires !BothActive(w, other) && (CoinOf(w).currentCap.Some? || CoinOf(w').metadata == CoinOf(w).metadata)
    ensures Alone(w', other)
  {
  }

  lemma OthersStay(a: World, b: World, i: nat, w': WalletState, j: nat, other: WalletState)
    requires i != j && WalletOk(a, j, other) && WalletOk(b, i, w') && Saved(a, b, w')
    requires w'.coin.Some? && CoinOf(w').keys.coinId !in a.adopted ==> Owns(a.owner, CoinOf(w').keys.coinId, i)
    requires Alone(w', other)
    ensures WalletOk(b, j, other)
  {
    hide PendingOk, Grows;
    WalletGrows(a, b, j, other);
  }

  lemma NodesCarried(sys: System, b: World, i: nat, node: Node)
    requires NodesOk(sys) && i < |sys.nodes| && Saved(sys.world, b, node.durable.wallet)
    requires WalletOk(b, i, node.durable.wallet) && SessionOk(b, i, node)
    requires var w' := node.durable.wallet;
             w'.coin.Some? && CoinOf(w').keys.coinId !in sys.world.adopted ==>
               Owns(sys.world.owner, CoinOf(w').keys.coinId, i)
    requires forall j :: 0 <= j < |sys.nodes| && j != i ==>
               Alone(node.durable.wallet, NodeOf(sys, j).durable.wallet)
    ensures NodesOk(System(sys.cfgs, Moved(sys.nodes, i, node), b))
  {
    hide WalletOk, Grows;
    var nodes' := Moved(sys.nodes, i, node);
    forall j | 0 <= j < |nodes'| ensures WalletOk(b, j, nodes'[j].durable.wallet) {
      if j != i {
        assert WalletOk(sys.world, j, NodeOf(sys, j).durable.wallet);
        OthersStay(sys.world, b, i, node.durable.wallet, j, NodeOf(sys, j).durable.wallet);
      }
    }
    forall j | 0 <= j < |nodes'| ensures SessionOk(b, j, nodes'[j]) {
      if j != i {
        assert SessionOk(sys.world, j, NodeOf(sys, j));
        SessionGrows(sys.world, b, j, NodeOf(sys, j));
      }
    }
    forall j | 0 <= j < |sys.nodes| && j != i ensures Alone(node.durable.wallet, sys.nodes[j].durable.wallet) {
      assert Alone(node.durable.wallet, NodeOf(sys, j).durable.wallet);
    }
    UniqueCarried(sys.nodes, i, node);
  }

  lemma UniqueCarried(nodes: seq<Node>, i: nat, node: Node)
    requires i < |nodes| && Unique(nodes)
    requires forall j :: 0 <= j < |nodes| && j != i ==> Alone(node.durable.wallet, nodes[j].durable.wallet)
    ensures Unique(Moved(nodes, i, node))
  {
    var nodes' := Moved(nodes, i, node);
    forall j, k | 0 <= j < |nodes'| && 0 <= k < |nodes'| && j != k
      ensures !BothActive(nodes'[j].durable.wallet, nodes'[k].durable.wallet)
    {
      if j == i {
        assert Alone(node.durable.wallet, nodes[k].durable.wallet);
      } else if k == i {
        assert Alone(node.durable.wallet, nodes[j].durable.wallet);
      } else {
        assert !BothActive(nodes[j].durable.wallet, nodes[k].durable.wallet);
      }
    }
  }

  // ---------------------------------------------------------------------------
  // The world after a save.

  /** A coin ID taken up by this save: its log is still empty. */
  ghost predicate TakenUp(a: World, i: nat, w': WalletState) {
    w'.coin.Some? && CoinOf(w').keys.coinId !in a.adopted ==>
      && Owns(a.owner, CoinOf(w').keys.coinId, i)
      && Key(CoinOf(w')) in a.logs && a.logs[Key(CoinOf(w'))].entries == []
  }

  lemma WorldCarried(a: World, b: World, i: nat, w': WalletState)
    requires WorldOk(a) && Saved(a, b, w') && DrawsOk(b) && WalletOk(b, i, w') && TakenUp(a, i, w')
    ensures WorldOk(b)
  {
    LogsStay(a, b);
    MetasCarried(a, b, i, w');
    AdoptionsCarried(a, b, i, w');
    CoinsStay(a, b);
  }

  lemma MetasCarried(a: World, b: World, i: nat, w': WalletState)
    requires MetasOk(a) && Saved(a, b, w') && WalletOk(b, i, w')
    ensures MetasOk(b)
  {
    forall key | key in b.meta ensures MetaOk(b, key) {
      if key in a.meta { assert MetaOk(a, key); }
    }
  }

  lemma AdoptionsCarried(a: World, b: World, i: nat, w': WalletState)
    requires AdoptionsOk(a) && Saved(a, b, w') && WalletOk(b, i, w') && TakenUp(a, i, w')
    ensures AdoptionsOk(b)
  {
    hide PendingOk;
    forall id | id in b.adopted ensures AdoptedOk(b, id) {
      if id in a.adopted { assert AdoptedOk(a, id); }
    }
  }

  /** The wallet that takes up a coin ID holds its first capability. */
  lemma TakenUpIsHeld(a: World, b: World, nodes: seq<Node>, i: nat, node: Node, id: Token)
    requires i < |nodes| && Saved(a, b, node.durable.wallet) && WalletOk(b, i, node.durable.wallet)
    requires TakenUp(a, i, node.durable.wallet) && Active(node.durable.wallet)
    requires id in b.adopted && id !in a.adopted && b.adopted[id] in b.logs
    ensures HolderOk(b, Moved(nodes, i, node), id)
  {
    hide PendingOk;
    var w' := node.durable.wallet;
    assert CoinOf(w').keys.coinId == id;
    assert Holds(w', id, CapOf(w'));
    assert |CoinOf(w').history| == 0;
  }

  /** Everything a save has to show about the one wallet it changes. */
  ghost predicate GoodSave(sys: System, b: World, i: nat, node: Node) {
    && i < |sys.nodes|
    && var a, w, w' := sys.world, NodeOf(sys, i).durable.wallet, node.durable.wallet;
       && Saved(a, b, w') && DrawsOk(b)
       && WalletOk(b, i, w') && SessionOk(b, i, node)
       && Carries(a, w, w') && TakenUp(a, i, w')
       && (w'.coin.Some? && CoinOf(w').keys.coinId !in a.adopted ==> Active(w'))
       && (forall j :: 0 <= j < |sys.nodes| && j != i ==> Alone(w', NodeOf(sys, j).durable.wallet))
  }

  lemma SaveKeepsAgreement(sys: System, b: World, i: nat, node: Node)
    requires Agrees(sys) && GoodSave(sys, b, i, node)
    ensures Agrees(System(sys.cfgs, Moved(sys.nodes, i, node), b))
  {
    hide WalletOk, MessagesOk, AdoptionsOk, SessionOk, Carries;
    var a, w' := sys.world, node.durable.wallet;
    NodesCarried(sys, b, i, node);
    WorldCarried(a, b, i, w');
    assert WalletOk(a, i, NodeOf(sys, i).durable.wallet);
    forall id | id in b.adopted && id !in a.adopted && b.adopted[id] in b.logs
      ensures HolderOk(b, Moved(sys.nodes, i, node), id)
    {
      TakenUpIsHeld(a, b, sys.nodes, i, node, id);
    }
    MessagesCarried(a, b, sys.nodes, i, node);
  }

  // ---------------------------------------------------------------------------
  // Saving a wallet update.

  /** Every wallet that kept its coin is alone with it. */
  lemma KeptIsAlone(sys: System, i: nat, w': WalletState, j: nat)
    requires NodesOk(sys) && i < |sys.nodes| && j < |sys.nodes| && i != j
    requires Carries(sys.world, NodeOf(sys, i).durable.wallet, w')
    requires w'.coin.Some? ==> NodeOf(sys, i).durable.wallet.coin.Some?
    requires w'.coin.Some? && NodeOf(sys, i).durable.wallet.coin.value.currentCap.None? ==>
               CoinOf(w').metadata == NodeOf(sys, i).durable.wallet.coin.value.metadata
    ensures Alone(w', NodeOf(sys, j).durable.wallet)
  {
    hide WalletOk, SessionsOk;
    var w, other := NodeOf(sys, i).durable.wallet, NodeOf(sys, j).durable.wallet;
    assert WalletOk(sys.world, i, w) && WalletOk(sys.world, j, other) && !BothActive(w, other);
    if w.coin.Some? {
      StaysAlone(sys.world, i, w, w', j, other);
    }
  }

  /** What a saved wallet update has to show, before its session is looked at. */
  ghost predicate GoodUpdate(sys: System, b: World, i: nat, w': WalletState) {
    && i < |sys.nodes|
    && var a, w := sys.world, NodeOf(sys, i).durable.wallet;
       && WalletOk(b, i, w') && Carries(a, w, w') && TakenUp(a, i, w')
       && (w'.coin.Some? && CoinOf(w').keys.coinId !in a.adopted ==> Active(w'))
       && (forall j :: 0 <= j < |sys.nodes| && j != i ==> Alone(w', NodeOf(sys, j).durable.wallet))
  }

  lemma UnadoptedIsEmpty(sys: System, key: Token)
    requires Agrees(sys) && key in sys.world.logs && sys.world.logs[key].coinId !in sys.world.adopted
    ensures sys.world.logs[key].entries == [] && key !in sys.world.meta
  {
    hide HasCoin, NodesOk, MessagesOk, AdoptedOk;
    var a := sys.world;
    assert LogOk(a, key);
    if a.logs[key].entries != [] {
      assert EntryAuthorized(key, a.logs[key], 0);
      SentIsAdopted(sys, a.logs[key].entries[0].request);
    }
    if key in a.meta {
      MetaIsAdopted(a, key);
    }
  }

  lemma MetaIsAdopted(a: World, key: Token)
    requires MetasOk(a) && AdoptionsOk(a) && key in a.meta && key in a.logs
    ensures a.logs[key].coinId in a.adopted
  {
    assert MetaOk(a, key) && AdoptedOk(a, a.meta[key].keys.coinId);
  }

  lemma SpenderHasCoin(sys: System, key: Token, p: nat)
    requires Agrees(sys) && key in sys.world.logs && p < |sys.world.logs[key].entries|
    ensures var cap := sys.world.logs[key].entries[p].request.cap;
            && cap in sys.world.owner && sys.world.owner[cap] < |sys.nodes|
            && sys.nodes[sys.world.owner[cap]].durable.wallet.coin.Some?
  {
    hide NodesOk, AdoptionsOk;
    assert LogOk(sys.world, key);
    assert SentOk(sys.world, sys.nodes, sys.world.logs[key].entries[p].request);
  }

  lemma NewCoinIsAlone(sys: System, i: nat, w': WalletState, j: nat)
    requires NodesOk(sys) && j < |sys.nodes| && w'.coin.Some? && CoinOf(w').keys.coinId !in sys.world.adopted
    ensures Alone(w', NodeOf(sys, j).durable.wallet)
  {
    assert WalletOk(sys.world, j, NodeOf(sys, j).durable.wallet);
  }

  lemma FinishRegisterIsGood(
      sys: System, cfg: Config, secret: Token, b: World, i: nat, u: WalletUpdate, w': WalletState)
    requires Agrees(sys) && i < |sys.nodes| && u.FinishRegister?
    requires var w := NodeOf(sys, i).durable.wallet;
             OpOk(sys.world, i, w, WalletOp(u)) && ApplyWallet(cfg, secret, w, u) == Ok(w')
    requires Saved(sys.world, b, w')
    ensures GoodUpdate(sys, b, i, w')
  {
    hide HasCoin, WorldOk, MessagesOk;
    var w := NodeOf(sys, i).durable.wallet;
    assert WalletOk(sys.world, i, w);
    UnadoptedIsEmpty(sys, u.status.signingKey.secret);
    FinishRegisterAgrees(cfg, secret, sys.world, b, i, w, u, w');
    forall j | 0 <= j < |sys.nodes| && j != i ensures Alone(w', NodeOf(sys, j).durable.wallet) {
      NewCoinIsAlone(sys, i, w', j);
    }
  }

  lemma SenderOfPackage(sys: System, envelope: TransferEnvelope) returns (s: nat)
    requires Agrees(sys) && Delivered(sys.world, envelope)
    ensures s < |sys.nodes| && FromSender(sys.world, s, NodeOf(sys, s).durable.wallet, envelope)
    ensures LogOk(sys.world, Key(NodeOf(sys, s).durable.wallet.coin.value))
  {
    hide SessionsOk;
    s :| (s, envelope) in sys.world.packages;
    assert PackageOk(sys.nodes, (s, envelope));
    assert WalletOk(sys.world, s, NodeOf(sys, s).durable.wallet);
  }

  /** A wallet without a coin never spent anything. */
  lemma CoinlessSpentNothing(sys: System, i: nat, key: Token, cap: Token)
    requires Agrees(sys) && i < |sys.nodes| && NodeOf(sys, i).durable.wallet.coin.None?
    requires Owns(sys.world.owner, cap, i) && key in sys.world.logs
    ensures !UsedCap(sys.world.logs[key], cap)
  {
    hide Agrees;
    var log := sys.world.logs[key];
    if UsedCap(log, cap) {
      var p :| 0 <= p < |log.entries| && log.entries[p].request.cap == cap;
      SpenderHasCoin(sys, key, p);
    }
  }

  lemma AcceptIsGood(
      sys: System, b: World, i: nat, w': WalletState, request: TransferRequest, envelope: TransferEnvelope)
    requires Agrees(sys) && i < |sys.nodes| && Delivered(sys.world, envelope)
    requires AcceptedFrom(NodeOf(sys, i).durable.wallet, request, envelope, w') && Saved(sys.world, b, w')
    ensures GoodUpdate(sys, b, i, w')
  {
    hide HasCoin, SessionsOk, Saved, WorldOk, MessagesOk;
    var a, w := sys.world, NodeOf(sys, i).durable.wallet;
    assert WalletOk(a, i, w);
    var s := SenderOfPackage(sys, envelope);
    var sender := NodeOf(sys, s).durable.wallet;
    CoinlessSpentNothing(sys, i, Key(CoinOf(sender)), IncomingOf(w).cap);
    AcceptApplied(a, b, i, w, w', request, envelope, s, sender);
    forall j | 0 <= j < |sys.nodes| && j != i ensures Alone(w', NodeOf(sys, j).durable.wallet) {
      var other := NodeOf(sys, j).durable.wallet;
      assert WalletOk(a, j, other);
      AcceptedIsAlone(a, i, w, w', s, sender, envelope, j, other);
    }
    TakesNothingUp(a, i, w', s, sender, envelope);
  }

  lemma AcceptedIsAlone(
      a: World, i: nat, w: WalletState, w': WalletState, s: nat, sender: WalletState, envelope: TransferEnvelope,
      j: nat, other: WalletState)
    requires i != j && WalletOk(a, i, w) && WalletOk(a, j, other) && FromSender(a, s, sender, envelope)
    requires LogOk(a, Key(CoinOf(sender)))
    requires w.incoming.Some? && AcceptedFrom(w, IncomingOf(w).request, envelope, w')
    requires !UsedCap(LogFor(a, CoinOf(sender)), IncomingOf(w).cap)
    requires j == s ==> other == sender
    ensures Alone(w', other)
  {
    if SameCoin(w', other) {
      SameIdSameKey(a, s, sender, j, other);
      AcceptIsOnlyActive(a, i, IncomingOf(w), s, sender, envelope, j, other);
    }
  }

  lemma TakesNothingUp(a: World, i: nat, w': WalletState, s: nat, sender: WalletState, envelope: TransferEnvelope)
    requires FromSender(a, s, sender, envelope)
    requires w'.coin.Some? && CoinOf(w').keys == envelope.ciphertext.payload.metadata.keys
    ensures CoinOf(w').keys.coinId in a.adopted
  {
  }

  lemma KeptIsGood(sys: System, b: World, i: nat, w': WalletState)
    requires NodesOk(sys) && i < |sys.nodes|
    requires WalletOk(b, i, w') && Carries(sys.world, NodeOf(sys, i).durable.wallet, w')
    requires w'.coin.Some? ==> NodeOf(sys, i).durable.wallet.coin.Some?
    requires w'.coin.Some? && NodeOf(sys, i).durable.wallet.coin.value.currentCap.None? ==>
               CoinOf(w').metadata == NodeOf(sys, i).durable.wallet.coin.value.metadata
    ensures GoodUpdate(sys, b, i, w')
  {
    hide WalletOk, SessionsOk;
    assert WalletOk(sys.world, i, NodeOf(sys, i).durable.wallet);
    forall j | 0 <= j < |sys.nodes| && j != i ensures Alone(w', NodeOf(sys, j).durable.wallet) {
      KeptIsAlone(sys, i, w', j);
    }
    KeptTakesNothingUp(sys.world, i, NodeOf(sys, i).durable.wallet, w');
  }

  lemma KeptTakesNothingUp(a: World, i: nat, w: WalletState, w': WalletState)
    requires WalletOk(a, i, w) && Carries(a, w, w') && (w'.coin.Some? ==> w.coin.Some?)
    ensures w'.coin.Some? ==> CoinOf(w').keys.coinId in a.adopted
  {
  }

  /** Which wallet updates leave the coin where it is. */
  lemma SimpleUpdateIsGood(sys: System, cfg: Config, secret: Token, b: World, i: nat, u: WalletUpdate, w': WalletState)
    requires Agrees(sys) && i < |sys.nodes|
    requires u.BeginRegister? || u.Ask? || u.Record? || u.MarkBroadcast?
    requires var w := NodeOf(sys, i).durable.wallet;
             OpOk(sys.world, i, w, WalletOp(u)) && ApplyWallet(cfg, secret, w, u) == Ok(w')
    requires Saved(sys.world, b, w')
    ensures GoodUpdate(sys, b, i, w')
  {
    hide ApplyWallet, WalletOk, WorldOk, MessagesOk, Carries, OpOk;
    var w := NodeOf(sys, i).durable.wallet;
    assert WalletOk(sys.world, i, w);
    if u.BeginRegister? { BeginRegisterAgrees(cfg, secret, sys.world, b, i, w, u, w'); }
    else if u.Ask? { AskAgrees(cfg, secret, sys.world, b, i, w, u, w'); }
    else if u.Record? { RecordAgrees(cfg, secret, sys.world, b, i, w, u, w'); }
    else { MarkBroadcastAgrees(cfg, secret, sys.world, b, i, w, u, w'); }
    SimpleKeepsCoin(cfg, secret, w, u, w');
    KeptIsGood(sys, b, i, w');
  }

  lemma SimpleKeepsCoin(cfg: Config, secret: Token, w: WalletState, u: WalletUpdate, w': WalletState)
    requires u.BeginRegister? || u.Ask? || u.Record? || u.MarkBroadcast?
    requires ApplyWallet(cfg, secret, w, u) == Ok(w')
    ensures w'.coin.Some? ==> w.coin.Some? && CoinOf(w').metadata == CoinOf(w).metadata
  {
    if u.MarkBroadcast? { MarkBroadcastShape(cfg, secret, w, u); }
  }

  lemma JournalUpdateIsGood(sys: System, cfg: Config, secret: Token, b: World, i: nat, u: WalletUpdate, w': WalletState)
    requires Agrees(sys) && i < |sys.nodes| && WalletSafe(NodeOf(sys, i).durable.wallet)
    requires u.BeginFund? || u.JournalFunding? || u.JournalAttempt? || u.Begin?
    requires var w := NodeOf(sys, i).durable.wallet;
             OpOk(sys.world, i, w, WalletOp(u)) && ApplyWallet(cfg, secret, w, u) == Ok(w')
    requires Saved(sys.world, b, w')
    ensures GoodUpdate(sys, b, i, w')
  {
    hide ApplyWallet, WalletOk, WorldOk, MessagesOk, Carries, WalletSafe;
    var w := NodeOf(sys, i).durable.wallet;
    assert WalletOk(sys.world, i, w);
    if u.BeginFund? { BeginFundAgrees(cfg, secret, sys.world, b, i, w, u, w'); }
    else if u.JournalFunding? { JournalFundingAgrees(cfg, secret, sys.world, b, i, w, u, w'); }
    else if u.JournalAttempt? { JournalAttemptAgrees(cfg, secret, sys.world, b, i, w, u, w'); }
    else { BeginAgrees(cfg, secret, sys.world, b, i, w, u, w'); }
    JournalKeepsCoin(cfg, secret, w, u, w');
    KeptIsGood(sys, b, i, w');
  }

  lemma JournalKeepsCoin(cfg: Config, secret: Token, w: WalletState, u: WalletUpdate, w': WalletState)
    requires u.BeginFund? || u.JournalFunding? || u.JournalAttempt? || u.Begin?
    requires ApplyWallet(cfg, secret, w, u) == Ok(w')
    ensures w.coin.Some? && CoinOf(w).currentCap.Some?
  {
    hide *;
    if u.BeginFund? { BeginFundShape(cfg, secret, w, u, w'); }
    else if u.JournalFunding? { JournalFundingShape(cfg, secret, w, u, w'); }
    else if u.JournalAttempt? { JournalAttemptShape(cfg, secret, w, u, w'); }
    else { BeginShape(cfg, secret, w, u, w'); }
  }

  lemma ResponseIsGood(sys: System, cfg: Config, secret: Token, b: World, i: nat, u: WalletUpdate, w': WalletState)
    requires Agrees(sys) && i < |sys.nodes| && (u.Secure? || u.Finish?)
    requires ApplyWallet(cfg, secret, NodeOf(sys, i).durable.wallet, u) == Ok(w')
    requires Saved(sys.world, b, w')
    ensures GoodUpdate(sys, b, i, w')
  {
    hide ApplyWallet, WalletOk, MessagesOk, SessionsOk, Saved, WorldOk;
    var a, w := sys.world, NodeOf(sys, i).durable.wallet;
    assert WalletOk(a, i, w);
    PendingReplyOk(sys, i);
    if u.Secure? {
      SecureShape(cfg, secret, w, u, w');
      SecureAgrees(cfg, secret, a, b, i, w, u, w');
    } else {
      FinishShape(cfg, secret, w, u, w');
      FinishAgrees(cfg, secret, a, b, i, w, u, w');
    }
    KeptIsGood(sys, b, i, w');
  }

  /** A saved response was really given, for the journaled request, under some log. */
  lemma PendingReplyOk(sys: System, i: nat)
    requires Agrees(sys) && i < |sys.nodes|
    ensures var w := NodeOf(sys, i).durable.wallet;
            && (w.coin.Some? ==> Key(CoinOf(w)) in sys.world.logs && LogOk(sys.world, Key(CoinOf(w))))
            && (Responding(w) ==> ReplyOk(sys.world, PendingEntry(w)))
  {
    hide SessionsOk, HolderOk;
    var w := NodeOf(sys, i).durable.wallet;
    assert WalletOk(sys.world, i, w);
    if w.coin.Some? {
      assert LogOk(sys.world, Key(CoinOf(w)));
      if Responding(w) {
        assert ReplyOk(sys.world, PendingEntry(w));
      }
    }
  }

  lemma UpdateIsGood(sys: System, cfg: Config, secret: Token, b: World, i: nat, u: WalletUpdate, w': WalletState)
    requires Agrees(sys) && i < |sys.nodes| && WalletSafe(NodeOf(sys, i).durable.wallet)
    requires var w := NodeOf(sys, i).durable.wallet;
             OpOk(sys.world, i, w, WalletOp(u)) && ApplyWallet(cfg, secret, w, u) == Ok(w')
    requires Saved(sys.world, b, w')
    ensures GoodUpdate(sys, b, i, w')
  {
    hide ApplyWallet, WalletOk, WorldOk, MessagesOk, GoodUpdate;
    var w := NodeOf(sys, i).durable.wallet;
    if u.BeginRegister? || u.Ask? || u.Record? || u.MarkBroadcast? {
      SimpleUpdateIsGood(sys, cfg, secret, b, i, u, w');
    } else if u.BeginFund? || u.JournalFunding? || u.JournalAttempt? || u.Begin? {
      JournalUpdateIsGood(sys, cfg, secret, b, i, u, w');
    } else if u.FinishRegister? {
      FinishRegisterIsGood(sys, cfg, secret, b, i, u, w');
    } else if u.Secure? || u.Finish? {
      ResponseIsGood(sys, cfg, secret, b, i, u, w');
    } else {
      AcceptShape(cfg, secret, w, u, w');
      if w' == w {
        UnchangedIsGood(sys, b, i);
      } else {
        AcceptIsGood(sys, b, i, w', u.request, u.envelope);
      }
    }
  }

  lemma UnchangedIsGood(sys: System, b: World, i: nat)
    requires NodesOk(sys) && i < |sys.nodes| && Saved(sys.world, b, NodeOf(sys, i).durable.wallet)
    ensures GoodUpdate(sys, b, i, NodeOf(sys, i).durable.wallet)
  {
    hide PendingOk, SessionsOk, GoodUpdate, Gone;
    var w := NodeOf(sys, i).durable.wallet;
    assert WalletOk(sys.world, i, w);
    WalletGrows(sys.world, b, i, w);
    KeptIsGood(sys, b, i, w);
  }
}
