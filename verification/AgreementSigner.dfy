/** Every signer step keeps the joint agreement. */
module AgreementSigner {
  import opened Wrappers
  import opened Bitcoin
  import opened Enclave
  import opened Client
  import opened Transfer
  import opened Validation
  import opened Wallet
  import opened Driver
  import opened DriverSafety
  import opened Ledger
  import opened Protocol
  import opened Agreement
  import opened Growth

  // ---------------------------------------------------------------------------
  // Wallets and messages when only the world moves.

  ghost predicate LivesOnly(a: World, b: World) {
    forall id, key :: key in a.logs && Live(b, id, key) ==> Live(a, id, key)
  }

  lemma NodesStay(sys: System, b: World)
    requires NodesOk(sys) && Grows(sys.world, b) && b.adopted == sys.world.adopted && b.meta == sys.world.meta
    requires forall i :: 0 <= i < |sys.nodes| ==> WalletOk(b, i, sys.nodes[i].durable.wallet)
    ensures NodesOk(sys.(world := b))
  {
    hide WalletOk, Grows;
    forall i | 0 <= i < |sys.nodes| ensures SessionOk(b, i, sys.nodes[i]) {
      assert SessionOk(sys.world, i, sys.nodes[i]);
      SessionGrows(sys.world, b, i, sys.nodes[i]);
    }
  }

  lemma WalletsStay(sys: System, b: World)
    requires NodesOk(sys) && Grows(sys.world, b) && b.adopted == sys.world.adopted && b.meta == sys.world.meta
    requires forall i :: 0 <= i < |sys.nodes| && WalletOk(sys.world, i, sys.nodes[i].durable.wallet) ==>
               Untouched(sys.world, b, sys.nodes[i].durable.wallet)
    ensures NodesOk(sys.(world := b))
  {
    hide WalletOk, SessionsOk;
    forall i | 0 <= i < |sys.nodes| ensures WalletOk(b, i, sys.nodes[i].durable.wallet) {
      assert WalletOk(sys.world, i, sys.nodes[i].durable.wallet);
      WalletGrows(sys.world, b, i, sys.nodes[i].durable.wallet);
    }
    NodesStay(sys, b);
  }

  lemma SentStay(a: World, b: World, nodes: seq<Node>)
    requires AllSent(a, nodes) && Grows(a, b)
    requires forall r :: r in b.sent ==> r in a.sent || SentOk(b, nodes, r)
    ensures AllSent(b, nodes)
  {
    forall r | r in b.sent ensures SentOk(b, nodes, r) {
      if r in a.sent {
        assert SentOk(a, nodes, r);
        SentByGrows(a, b, nodes[a.owner[r.cap]].durable.wallet, r);
      }
    }
  }

  lemma RequestsStay(a: World, b: World, nodes: seq<Node>)
    requires AllRequests(a, nodes) && Grows(a, b)
    requires forall r :: r in b.requests ==> r in a.requests || RequestOk(b, nodes, r)
    ensures AllRequests(b, nodes)
  {
    forall r | r in b.requests ensures RequestOk(b, nodes, r) {
      if r in a.requests {
        assert RequestOk(a, nodes, r);
      }
    }
  }

  lemma RepliesStay(a: World, b: World)
    requires AllReplies(a) && AdoptionsOk(a) && Grows(a, b) && LivesOnly(a, b)
    requires forall e :: e in b.replies ==> e in a.replies || ReplyOk(b, e)
    ensures AllReplies(b)
  {
    forall e | e in b.replies ensures ReplyOk(b, e) {
      if e in a.replies {
        assert ReplyOk(a, e) && AdoptedOk(a, e.request.coinId);
        ReplyGrows(a, b, e);
      }
    }
  }

  lemma StatusesStay(a: World, b: World)
    requires AllStatuses(a) && Grows(a, b)
    requires forall status :: status in b.regReplies ==> status in a.regReplies || StatusOk(b, status)
    ensures AllStatuses(b)
  {
    forall status | status in b.regReplies ensures StatusOk(b, status) {
      if status in a.regReplies {
        assert StatusOk(a, status);
        StatusGrows(a, b, status);
      }
    }
  }

  lemma HoldersStay(a: World, b: World, nodes: seq<Node>)
    requires AllHolders(a, nodes) && AdoptionsOk(a) && Grows(a, b) && b.adopted == a.adopted
    requires forall id :: id in b.adopted && b.adopted[id] in b.logs ==>
               (a.adopted[id] in a.logs ==> b.logs[a.adopted[id]] == a.logs[a.adopted[id]]) || HolderOk(b, nodes, id)
    ensures AllHolders(b, nodes)
  {
    forall id | id in b.adopted && b.adopted[id] in b.logs ensures HolderOk(b, nodes, id) {
      assert AdoptedOk(a, id) && HolderOk(a, nodes, id);
    }
  }

  /** Old messages stay explained; new replies, statuses and holders are the caller's. */
  lemma MessagesStay(a: World, b: World, nodes: seq<Node>)
    requires MessagesOk(a, nodes) && AdoptionsOk(a) && Grows(a, b) && LivesOnly(a, b)
    requires b.sent == a.sent && b.requests == a.requests && b.packages == a.packages && b.adopted == a.adopted
    requires forall e :: e in b.replies ==> e in a.replies || ReplyOk(b, e)
    requires forall status :: status in b.regReplies ==> status in a.regReplies || StatusOk(b, status)
    requires forall id :: id in b.adopted && b.adopted[id] in b.logs ==>
               (a.adopted[id] in a.logs ==> b.logs[a.adopted[id]] == a.logs[a.adopted[id]]) || HolderOk(b, nodes, id)
    ensures MessagesOk(b, nodes)
  {
    SentStay(a, b, nodes);
    RequestsStay(a, b, nodes);
    RepliesStay(a, b);
    StatusesStay(a, b);
    HoldersStay(a, b, nodes);
  }

  lemma AdoptionsStay(a: World, b: World)
    requires AdoptionsOk(a) && Grows(a, b) && b.adopted == a.adopted && b.meta == a.meta
    requires forall id :: id in a.adopted && a.adopted[id] in a.logs ==>
               b.logs[a.adopted[id]] == a.logs[a.adopted[id]] || AdoptedOk(b, id)
    ensures AdoptionsOk(b)
  {
    forall id | id in b.adopted ensures AdoptedOk(b, id) { assert AdoptedOk(a, id); }
  }

  lemma MetasStay(a: World, b: World)
    requires MetasOk(a) && b.meta == a.meta && b.adopted == a.adopted
    ensures MetasOk(b)
  {
    forall key | key in b.meta ensures MetaOk(b, key) { assert MetaOk(a, key); }
  }

  lemma LogsStay(a: World, b: World)
    requires LogsOk(a) && Grows(a, b)
    requires forall key :: key in b.logs ==> (key in a.logs && b.logs[key] == a.logs[key]) || LogOk(b, key)
    ensures LogsOk(b)
  {
    forall key | key in b.logs ensures LogOk(b, key) {
      if key in a.logs && b.logs[key] == a.logs[key] {
        assert LogOk(a, key);
        LogGrows(a, b, key);
      }
    }
  }

  lemma CoinsStay(a: World, b: World)
    requires CoinsOk(a)
    requires forall id :: id in b.coins ==>
               LiveOk(b, id) || (id in a.coins && b.coins[id] == a.coins[id]
                                 && (a.coins[id].signingKey in a.logs ==>
                                       a.coins[id].signingKey in b.logs
                                       && b.logs[a.coins[id].signingKey] == a.logs[a.coins[id].signingKey]))
    ensures CoinsOk(b)
  {
    forall id | id in b.coins ensures LiveOk(b, id) {
      if id in a.coins { assert LiveOk(a, id); }
    }
  }

  // ---------------------------------------------------------------------------
  // Restart.

  lemma RestartKeeps(sys: System)
    requires Agrees(sys)
    ensures Agrees(sys.(world := sys.world.(coins := map[])))
  {
    hide HasCoin, AdoptedOk, NodesOk;
    var a := sys.world;
    var b := a.(coins := map[]);
    assert forall id, key :: !Live(b, id, key);
    WalletsStay(sys, b);
    MessagesStay(a, b, sys.nodes);
    LogsStay(a, b);
    MetasStay(a, b);
    AdoptionsStay(a, b);
    CoinsStay(a, b);
  }

  // ---------------------------------------------------------------------------
  // Registration.

  /** A registration request is answered by the existing coin, or opens an empty log under a fresh key. */
  ghost predicate Registered(a: World, b: World, r: RegisterRequest, status: CoinStatus) {
    && b == a.(coins := b.coins, logs := b.logs, regReplies := a.regReplies + {status}, nextToken := a.nextToken + 1)
    && r.coinId in b.coins && status == b.coins[r.coinId].Status(r.coinId)
    && if r.coinId in a.coins then b.coins == a.coins && b.logs == a.logs
       else
         && b.coins == a.coins[r.coinId := b.coins[r.coinId]]
         && b.logs == a.logs[a.nextToken := CoinLog(r.coinId, r.initialCapHash, [])]
         && b.coins[r.coinId].signingKey == a.nextToken
         && Explains(b.logs[a.nextToken], r.coinId, b.coins[r.coinId])
  }

  lemma RegisterShape(a: World, r: RegisterRequest)
    ensures var b := RegisterWorld(a, r);
            b == a || (r.coinId in b.coins && Registered(a, b, r, b.coins[r.coinId].Status(r.coinId)))
  {
  }

  lemma RegisteredGrows(a: World, b: World, r: RegisterRequest, status: CoinStatus)
    requires LogsOk(a) && Registered(a, b, r, status)
    ensures Grows(a, b) && LivesOnly(a, b) && forall key :: key in a.logs ==> b.logs[key] == a.logs[key]
  {
    assert a.nextToken in a.logs ==> LogOk(a, a.nextToken);
  }

  lemma RegisteredKeepsWorld(a: World, b: World, r: RegisterRequest, status: CoinStatus)
    requires WorldOk(a) && Registered(a, b, r, status) && Grows(a, b)
    requires forall key :: key in a.logs ==> b.logs[key] == a.logs[key]
    ensures WorldOk(b) && StatusOk(b, status)
  {
    LogsStay(a, b);
    MetasStay(a, b);
    AdoptionsStay(a, b);
    assert LiveOk(b, r.coinId) by { if r.coinId in a.coins { assert LiveOk(a, r.coinId); } }
    forall id | id in b.coins && id != r.coinId
      ensures id in a.coins && b.coins[id] == a.coins[id] && LiveOk(a, id) {
    }
    CoinsStay(a, b);
  }

  lemma RegisteredKeeps(sys: System, b: World, r: RegisterRequest, status: CoinStatus)
    requires Agrees(sys) && Registered(sys.world, b, r, status)
    ensures Agrees(sys.(world := b))
  {
    hide HasCoin, AdoptedOk, NodesOk, MessagesOk, Grows;
    var a := sys.world;
    RegisteredGrows(a, b, r, status);
    RegisteredKeepsWorld(a, b, r, status);
    WalletsStay(sys, b);
    MessagesStay(a, b, sys.nodes);
  }

  lemma RegisterKeeps(sys: System, r: RegisterRequest)
    requires Agrees(sys)
    ensures Agrees(sys.(world := RegisterWorld(sys.world, r)))
  {
    hide *;
    var b := RegisterWorld(sys.world, r);
    RegisterShape(sys.world, r);
    if b == sys.world {
      assert sys.(world := b) == sys;
    } else {
      RegisteredKeeps(sys, b, r, b.coins[r.coinId].Status(r.coinId));
    }
  }

  // ---------------------------------------------------------------------------
  // Signing.

  /** The delivered request is answered from the newest entry of the live log. */
  ghost predicate Replayed(a: World, b: World, r: SignRequest, e: Entry) {
    && r.coinId in a.coins
    && var key := a.coins[r.coinId].signingKey;
       && b == a.(replies := a.replies + {e}, nextToken := a.nextToken + 1)
       && e.request == r && key in a.logs && e in a.logs[key].entries && e.response.signature.key == Point(key)
  }

  /** The delivered request is signed and appended to the live log. */
  ghost predicate Signed(a: World, b: World, r: SignRequest, e: Entry) {
    && r.coinId in a.coins
    && var key := a.coins[r.coinId].signingKey;
       && key in a.logs && e.request == r
       && Opened(r) == LiveAuth(a.logs[key]) && r.nextCapHash != CapHash(r.cap)
       && e.response == SignResponse(Sig(Point(key), r.sighash, 0), a.nextToken)
       && b.logs == a.logs[key := Append(a.logs[key], e)]
       && b == a.(coins := b.coins, logs := b.logs, replies := a.replies + {e}, nextToken := a.nextToken + 1)
       && b.coins.Keys == a.coins.Keys
       && (forall id :: id in a.coins ==> b.coins[id].signingKey == a.coins[id].signingKey)
       && (forall id :: id in a.coins && id != r.coinId ==> b.coins[id] == a.coins[id])
       && Explains(b.logs[key], r.coinId, b.coins[r.coinId])
  }

  lemma SignWorldShape(a: World, r: SignRequest) returns (e: Entry)
    requires LogsOk(a) && CoinsOk(a)
    ensures var b := SignWorld(a, r); b == a || Replayed(a, b, r, e) || Signed(a, b, r, e)
  {
    var result := SignWith(a.coins, r, a.nextToken).1;
    e := Entry(r, if result.Ok? then result.value else SignResponse(Sig(Point(0), r.sighash, 0), 0));
    if result.Ok? {
      assert LiveOk(a, r.coinId);
      var coin := a.coins[r.coinId];
      var log := a.logs[coin.signingKey];
      assert LogOk(a, coin.signingKey);
      SignRefinesAppend(log, r.coinId, coin, r, a.nextToken);
      if coin.last.Some? && coin.last.value.0 == r {
        assert a.coins[r.coinId := coin] == a.coins;
        assert log.entries[|log.entries| - 1] == e;
        assert EntryAuthorized(coin.signingKey, log, |log.entries| - 1);
      } else {
        assert SignWith(a.coins, r, a.nextToken).0[r.coinId].count != a.coins[r.coinId].count;
      }
    }
  }

  lemma ReplayedReply(a: World, b: World, r: SignRequest, e: Entry)
    requires Replayed(a, b, r, e) && r.coinId in a.adopted
    ensures ReplyOk(b, e) && Grows(a, b) && LivesOnly(a, b)
  {
  }

  lemma ReplayKeeps(sys: System, b: World, r: SignRequest, e: Entry)
    requires Agrees(sys) && r.coinId in sys.world.adopted && Replayed(sys.world, b, r, e)
    ensures Agrees(sys.(world := b))
  {
    hide HasCoin, AdoptedOk, NodesOk, MessagesOk, HolderOk, Grows;
    var a := sys.world;
    ReplayedReply(a, b, r, e);
    WalletsStay(sys, b);
    MessagesStay(a, b, sys.nodes);
    LogsStay(a, b);
    MetasStay(a, b);
    AdoptionsStay(a, b);
    CoinsStay(a, b);
  }

  /** Who sent a request: the wallet that owns its capability, under the key taken up for the coin. */
  lemma SentIsAdopted(sys: System, r: SignRequest)
    requires Agrees(sys) && r in sys.world.sent
    ensures SentOk(sys.world, sys.nodes, r)
    ensures r.coinId in sys.world.adopted && AdoptedOk(sys.world, r.coinId)
    ensures var i := sys.world.owner[r.cap];
            var w := sys.nodes[i].durable.wallet;
            HasCoin(sys.world, i, w) && Key(CoinOf(w)) == sys.world.adopted[r.coinId]
  {
    hide SessionsOk;
    assert SentOk(sys.world, sys.nodes, r);
    var i := sys.world.owner[r.cap];
    assert WalletOk(sys.world, i, sys.nodes[i].durable.wallet);
  }

  /** A request that opens the live commitment is the pending one of its wallet, at the end of the log. */
  lemma OpeningIsPending(world: World, i: nat, w: WalletState, r: SignRequest)
    requires w.coin.Some? && HasCoin(world, i, w) && LogOk(world, Key(CoinOf(w)))
    requires SentBy(world, w, r) && Opened(r) == LiveAuth(LogFor(world, CoinOf(w)))
    ensures PendingIs(w, r) && Active(w) && |CoinOf(w).history| == |LogFor(world, CoinOf(w)).entries|
  {
    var log := LogFor(world, CoinOf(w));
    if InLog(log, r) {
      var p :| 0 <= p < |log.entries| && log.entries[p].request == r;
      assert EntryAuthorized(Key(CoinOf(w)), log, p);
      PositionsDiffer(log, p, |log.entries|);
    }
  }

  lemma SignedGrows(a: World, b: World, r: SignRequest, e: Entry)
    requires Signed(a, b, r, e)
    ensures Grows(a, b) && LivesOnly(a, b)
  {
  }

  lemma SignedKeepsLog(a: World, b: World, r: SignRequest, e: Entry, key: Token)
    requires WorldOk(a) && Signed(a, b, r, e) && r in a.sent && key in b.logs
    ensures LogOk(b, key)
  {
    hide AdoptionsOk;
    assert LogOk(a, key);
    if key == a.coins[r.coinId].signingKey {
      AppendChained(key, a.logs[key], e);
    }
  }

  lemma SignedKeepsLive(a: World, b: World, r: SignRequest, e: Entry, id: Token)
    requires WorldOk(a) && Signed(a, b, r, e) && id in b.coins
    ensures LiveOk(b, id)
  {
    assert LiveOk(a, id) && LiveOk(a, r.coinId);
  }

  /** What signing keeps of the world, given that the appended log stays good for the coin that took its key up. */
  lemma SignedKeepsWorld(a: World, b: World, r: SignRequest, e: Entry)
    requires WorldOk(a) && Signed(a, b, r, e) && r in a.sent
    requires forall id :: id in a.adopted && a.adopted[id] == a.coins[r.coinId].signingKey ==> AdoptedOk(b, id)
    ensures WorldOk(b)
  {
    forall key | key in b.logs ensures LogOk(b, key) { SignedKeepsLog(a, b, r, e, key); }
    forall id | id in b.coins ensures LiveOk(b, id) { SignedKeepsLive(a, b, r, e, id); }
    forall key | key in b.meta ensures MetaOk(b, key) { assert MetaOk(a, key); }
    forall id | id in b.adopted ensures AdoptedOk(b, id) { assert AdoptedOk(a, id); }
  }

  lemma StrayLeavesAlone(a: World, b: World, i: nat, w: WalletState, r: SignRequest, e: Entry)
    requires WalletOk(a, i, w) && Signed(a, b, r, e) && LiveOk(a, r.coinId)
    requires forall id :: id in a.adopted ==> a.adopted[id] != a.coins[r.coinId].signingKey
    ensures Untouched(a, b, w)
  {
    hide PendingOk, Holding, Gone;
  }

  /** A signature under a key nobody took up touches no wallet. */
  lemma StraySignatureKeeps(sys: System, b: World, r: SignRequest, e: Entry)
    requires Agrees(sys) && r in sys.world.sent && Signed(sys.world, b, r, e)
    requires r.coinId in sys.world.adopted && sys.world.adopted[r.coinId] != sys.world.coins[r.coinId].signingKey
    ensures Agrees(sys.(world := b))
  {
    hide MessagesOk, SessionsOk, WalletOk;
    var a := sys.world;
    SignedGrows(a, b, r, e);
    assert LiveOk(a, r.coinId);
    assert forall id :: id in a.adopted ==> AdoptedOk(a, id) && a.adopted[id] != a.coins[r.coinId].signingKey;
    SignedKeepsWorld(a, b, r, e);
    forall i | 0 <= i < |sys.nodes| ensures Untouched(a, b, sys.nodes[i].durable.wallet) {
      assert WalletOk(a, i, sys.nodes[i].durable.wallet);
      StrayLeavesAlone(a, b, i, sys.nodes[i].durable.wallet, r, e);
    }
    WalletsStay(sys, b);
    NewReplyOk(a, b, r, e);
    MessagesStay(a, b, sys.nodes);
  }

  lemma NewReplyOk(a: World, b: World, r: SignRequest, e: Entry)
    requires Signed(a, b, r, e) && r.coinId in a.adopted
    ensures ReplyOk(b, e)
  {
    var log := b.logs[a.coins[r.coinId].signingKey];
    assert log.entries[|log.entries| - 1] == e;
  }

  /** The journaled attempt becomes the next canonical entry. */
  lemma AttemptExtendsGoodLog(
      m: CoinMetadata, key: Token, log: CoinLog, coin: WalletCoin, attempt: RecoveryAttempt, e: Entry)
    requires AttemptOk(log, coin, attempt) && Holding(log, coin) && |coin.history| == |log.entries|
    requires coin.metadata == Some(m) && e.request == attempt.request && e.request.coinId == m.keys.coinId
    requires log.entries != [] ==> GoodLog(m, log)
    ensures GoodLog(m, Append(log, e))
  {
    hide MinimalNonDust, RecoverySighash, CompletedRecovery;
    var n := |log.entries|;
    var log' := Append(log, e);
    PreparedEntry(m, attempt.prepared.withdrawal, attempt.delay, e.request, e.response);
    forall p | 0 <= p < |log'.entries| ensures CanonicalEntry(m, log'.entries[p]) {
      if p < n { assert CanonicalEntry(m, log.entries[p]); }
    }
    forall p | 0 < p < |log'.entries| ensures DelayStepsAt(log', p) {
      if p < n {
        assert DelayStepsAt(log, p);
      } else {
        assert Last(coin.history) == RecoveryOf(log.entries[n - 1]);
      }
    }
  }

  /** The signing wallet itself after its attempt was appended. */
  lemma SignerWalletAdvances(a: World, b: World, i: nat, w: WalletState, r: SignRequest, e: Entry)
    requires Grows(a, b) && b.meta == a.meta && w.coin.Some? && HasCoin(a, i, w) && Active(w)
    requires PendingIs(w, r) && e.request == r
    requires |CoinOf(w).history| == |LogFor(a, CoinOf(w)).entries|
    requires LogFor(b, CoinOf(w)) == Append(LogFor(a, CoinOf(w)), e)
    ensures WalletOk(b, i, w)
  {
    hide PendingOk, RecoveryOf;
    var coin := CoinOf(w);
    var log, log' := LogFor(a, coin), LogFor(b, coin);
    AuthAtGrows(log, log', |coin.history|);
    PrefixGrows(log, log', |coin.history|);
    AcceptedGrows(log, log', coin);
    PendingGrowsByOwn(a, b, i, log, w, e);
  }

  lemma PendingGrowsByOwn(a: World, b: World, i: nat, log: CoinLog, w: WalletState, e: Entry)
    requires Grows(a, b) && w.coin.Some? && PendingOk(a, i, log, w) && PendingIs(w, e.request)
    requires |CoinOf(w).history| == |log.entries|
    ensures PendingOk(b, i, Append(log, e), w)
  {
    AuthAtAppend(log, e, |log.entries|);
  }

  /** After a signature the new live capability is held by whoever the request named, unless it was spent before. */
  lemma NextHolder(a: World, nodes: seq<Node>, b: World, i: nat, r: SignRequest, e: Entry)
    requires Grows(a, b) && Signed(a, b, r, e) && Unique(nodes)
    requires forall j :: 0 <= j < |nodes| ==> WalletOk(a, j, nodes[j].durable.wallet)
    requires forall request :: request in a.requests ==> RequestOk(a, nodes, request)
    requires i < |nodes|
    requires var w := nodes[i].durable.wallet;
             && Active(w) && PendingIs(w, r) && r.coinId == CoinOf(w).keys.coinId
             && Key(CoinOf(w)) == a.coins[r.coinId].signingKey
    ensures r.coinId in b.adopted && b.adopted[r.coinId] in b.logs && HolderOk(b, nodes, r.coinId)
  {
    hide Gone, Holding;
    var w := nodes[i].durable.wallet;
    assert HasCoin(a, i, w);
    assert LiveCap(b, r.coinId) == r.nextCapHash.cap;
    match PurposeOf(w)
    case Fund(nextCap, _) =>
      assert Holds(w, r.coinId, nextCap);
    case Transfer(request) =>
      assert RequestOk(a, nodes, request);
      var j := a.owner[request.nextCapHash.cap];
      assert WalletOk(a, j, nodes[j].durable.wallet);
      assert i != j ==> !BothActive(w, nodes[j].durable.wallet);
      ReceiverHolds(a, b, i, w, j, nodes[j].durable.wallet, request, r);
  }

  /** The wallet that published a request still has its capability, or the capability was spent. */
  lemma ReceiverHolds(
      a: World, b: World, i: nat, w: WalletState, j: nat, receiver: WalletState, request: TransferRequest,
      r: SignRequest)
    requires Grows(a, b)
    requires w.coin.Some? && HasCoin(a, i, w) && Active(w) && CoinOf(w).currentCap == Some(r.cap)
    requires request.coinId == CoinOf(w).keys.coinId
    requires request.nextCapHash == r.nextCapHash && r.nextCapHash != CapHash(r.cap)
    requires WalletOk(a, j, receiver) && Asked(receiver, request)
    requires i == j ==> receiver == w
    requires i != j ==> !BothActive(w, receiver)
    ensures UsedCap(LogFor(b, CoinOf(w)), request.nextCapHash.cap)
         || Holds(receiver, request.coinId, request.nextCapHash.cap)
  {
    hide PendingOk, Gone, Holding;
    if receiver.coin.Some? {
      UsedCapGrows(LogFor(a, CoinOf(w)), LogFor(b, CoinOf(w)), request.nextCapHash.cap);
    }
  }

  /** The wallets after wallet `i`'s pending attempt was signed. */
  lemma SignerNodesAdvance(sys: System, b: World, i: nat, r: SignRequest, e: Entry)
    requires NodesOk(sys) && i < |sys.nodes| && Grows(sys.world, b) && Signed(sys.world, b, r, e)
    requires var w := sys.nodes[i].durable.wallet;
             && Active(w) && PendingIs(w, r) && r.coinId == CoinOf(w).keys.coinId
             && HasCoin(sys.world, i, w) && Key(CoinOf(w)) == sys.world.coins[r.coinId].signingKey
             && |CoinOf(w).history| == |LogFor(sys.world, CoinOf(w)).entries|
    ensures NodesOk(sys.(world := b))
  {
    hide PendingOk, SessionsOk, Grows, Gone, Holding;
    var a := sys.world;
    var w := sys.nodes[i].durable.wallet;
    forall j | 0 <= j < |sys.nodes| ensures WalletOk(b, j, sys.nodes[j].durable.wallet) {
      assert WalletOk(a, j, sys.nodes[j].durable.wallet);
      if j == i {
        SignerWalletAdvances(a, b, i, w, r, e);
      } else {
        assert !BothActive(w, sys.nodes[j].durable.wallet);
        WalletGrows(a, b, j, sys.nodes[j].durable.wallet);
      }
    }
    NodesStay(sys, b);
  }

  lemma OwnWorld(a: World, b: World, i: nat, w: WalletState, r: SignRequest, e: Entry)
    requires WorldOk(a) && Signed(a, b, r, e) && r in a.sent
    requires r.coinId in a.adopted && a.adopted[r.coinId] == a.coins[r.coinId].signingKey
    requires w.coin.Some? && HasCoin(a, i, w) && Active(w) && PendingIs(w, r)
    requires CoinOf(w).keys.coinId == r.coinId && Key(CoinOf(w)) == a.adopted[r.coinId]
    requires |CoinOf(w).history| == |LogFor(a, CoinOf(w)).entries|
    ensures WorldOk(b)
  {
    var key := a.adopted[r.coinId];
    assert AdoptedOk(a, r.coinId);
    AttemptExtendsGoodLog(a.meta[key], key, a.logs[key], CoinOf(w), AttemptOf(w), e);
    forall id | id in a.adopted && a.adopted[id] == key ensures AdoptedOk(b, id) {
      assert AdoptedOk(a, id) && MetaOk(a, key);
    }
    SignedKeepsWorld(a, b, r, e);
  }

  lemma OwnSignatureKeeps(sys: System, b: World, r: SignRequest, e: Entry)
    requires Agrees(sys) && r in sys.world.sent && Signed(sys.world, b, r, e)
    requires r.coinId in sys.world.adopted && sys.world.adopted[r.coinId] == sys.world.coins[r.coinId].signingKey
    ensures Agrees(sys.(world := b))
  {
    hide HasCoin, GoodLog, SessionsOk;
    var a := sys.world;
    SignedGrows(a, b, r, e);
    SentIsAdopted(sys, r);
    var i := a.owner[r.cap];
    var w := sys.nodes[i].durable.wallet;
    assert LogOk(a, a.adopted[r.coinId]);
    OpeningIsPending(a, i, w, r);
    OwnWorld(a, b, i, w, r, e);
    SignerNodesAdvance(sys, b, i, r, e);
    NextHolder(a, sys.nodes, b, i, r, e);
    NewReplyOk(a, b, r, e);
    assert forall id :: id in a.adopted && id != r.coinId ==> AdoptedOk(a, id) && a.adopted[id] != a.adopted[r.coinId];
    MessagesStay(a, b, sys.nodes);
  }

  lemma SignedOrReplayedKeeps(sys: System, b: World, r: SignRequest, e: Entry)
    requires Agrees(sys) && r in sys.world.sent
    requires Replayed(sys.world, b, r, e) || Signed(sys.world, b, r, e)
    ensures Agrees(sys.(world := b))
  {
    hide Agrees, HasCoin, AdoptedOk;
    SentIsAdopted(sys, r);
    if Replayed(sys.world, b, r, e) {
      ReplayKeeps(sys, b, r, e);
    } else if sys.world.adopted[r.coinId] == sys.world.coins[r.coinId].signingKey {
      OwnSignatureKeeps(sys, b, r, e);
    } else {
      StraySignatureKeeps(sys, b, r, e);
    }
  }

  lemma SignKeeps(sys: System, r: SignRequest)
    requires Agrees(sys) && r in sys.world.sent
    ensures Agrees(sys.(world := SignWorld(sys.world, r)))
  {
    hide NodesOk, MessagesOk;
    var b := SignWorld(sys.world, r);
    var e := SignWorldShape(sys.world, r);
    if b == sys.world {
      assert sys.(world := b) == sys;
    } else {
      SignedOrReplayedKeeps(sys, b, r, e);
    }
  }
}
