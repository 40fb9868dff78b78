/** The fail-stop signer of enclave/src/lib.rs and the append-only log it refines. */
module Enclave {
  import opened Wrappers
  import opened Bitcoin

  datatype CapHash = CapHash(cap: Token)

  /** The commitment that the next request has to open. */
  datatype Authorization = Authorization(coinId: Token, capHash: CapHash, handoff: Token)

  const INITIAL_HANDOFF: Token := 0

  datatype RegisterRequest = RegisterRequest(coinId: Token, initialCapHash: CapHash)

  datatype SignRequest = SignRequest(coinId: Token, cap: Token, handoff: Token, nextCapHash: CapHash, sighash: Sighash)

  datatype SignResponse = SignResponse(signature: Signature, nextHandoff: Token)

  datatype CoinStatus = CoinStatus(coinId: Token, signingKey: PubKey, authorization: Authorization, count: u64)

  datatype SignerError =
    | UnknownCoin
    | CapacityReached
    | Unauthorized
    | UnchangedCapability
    | SignatureCountOverflow

  datatype Request = Register(register: RegisterRequest) | Status(coinId: Token) | Sign(sign: SignRequest)

  datatype Response = StatusResponse(status: CoinStatus) | SignatureResponse(signature: SignResponse)

  datatype Coin = Coin(
    signingKey: Token,
    authorization: Authorization,
    count: u64,
    last: Option<(SignRequest, SignResponse)>)
  {
    function Status(coinId: Token): CoinStatus {
      CoinStatus(coinId, Point(signingKey), authorization, count)
    }
  }

  type Coins = map<Token, Coin>

  function StatusOf(coins: Coins, coinId: Token): Result<CoinStatus, SignerError> {
    if coinId in coins then Ok(coins[coinId].Status(coinId)) else Err(UnknownCoin)
  }

  /** `register`, with the drawn signing key as an argument. */
  function RegisterCoin(coins: Coins, limit: nat, request: RegisterRequest, signingKey: Token)
    : (Coins, Result<CoinStatus, SignerError>)
  {
    if request.coinId in coins then
      (coins, StatusOf(coins, request.coinId))
    else if |coins| >= limit then
      (coins, Err(CapacityReached))
    else
      var auth := Authorization(request.coinId, request.initialCapHash, INITIAL_HANDOFF);
      var coin := Coin(signingKey, auth, 0, None);
      (coins[request.coinId := coin], Ok(coin.Status(request.coinId)))
  }

  /** The commitment that `request` opens. */
  function Opened(request: SignRequest): Authorization {
    Authorization(request.coinId, CapHash(request.cap), request.handoff)
  }

  /** `sign` on one coin, with the drawn handoff as an argument. */
  function SignCoin(coin: Coin, request: SignRequest, handoff: Token): Result<(Coin, SignResponse), SignerError> {
    if coin.last.Some? && coin.last.value.0 == request then
      Ok((coin, coin.last.value.1))
    else if Opened(request) != coin.authorization then
      Err(Unauthorized)
    else if request.nextCapHash == CapHash(request.cap) then
      Err(UnchangedCapability)
    else if coin.count == U64_MAX then
      Err(SignatureCountOverflow)
    else
      var response := SignResponse(Sig(Point(coin.signingKey), request.sighash, 0), handoff);
      var auth := Authorization(request.coinId, request.nextCapHash, handoff);
      Ok((Coin(coin.signingKey, auth, coin.count + 1, Some((request, response))), response))
  }

  function SignWith(coins: Coins, request: SignRequest, handoff: Token): (Coins, Result<SignResponse, SignerError>) {
    if request.coinId !in coins then
      (coins, Err(UnknownCoin))
    else
      match SignCoin(coins[request.coinId], request, handoff)
      case Err(e) => (coins, Err(e))
      case Ok((coin, response)) => (coins[request.coinId := coin], Ok(response))
  }

  // ---------------------------------------------------------------------------
  // The append-only log.

  datatype Entry = Entry(request: SignRequest, response: SignResponse)

  /** What one signing process did for one registration: everything it ever signed, in order. */
  datatype CoinLog = CoinLog(coinId: Token, init: CapHash, entries: seq<Entry>)

  /** The commitment in force after the first `p` signatures. */
  function AuthAt(log: CoinLog, p: nat): Authorization {
    if p == 0 || p > |log.entries| then Authorization(log.coinId, log.init, INITIAL_HANDOFF)
    else
      var e := log.entries[p - 1];
      Authorization(log.coinId, e.request.nextCapHash, e.response.nextHandoff)
  }

  function LiveAuth(log: CoinLog): Authorization {
    AuthAt(log, |log.entries|)
  }

  function Append(log: CoinLog, e: Entry): CoinLog {
    log.(entries := log.entries + [e])
  }

  /** Entry `p` was authorized by what entry `p - 1` committed to, and signed with this key. */
  ghost predicate EntryAuthorized(key: Token, log: CoinLog, p: nat) {
    && p < |log.entries|
    && var e := log.entries[p];
    && Opened(e.request) == AuthAt(log, p)
    && e.request.nextCapHash != CapHash(e.request.cap)
    && e.response.signature == Sig(Point(key), e.request.sighash, 0)
  }

  ghost predicate Chained(key: Token, log: CoinLog) {
    forall p :: 0 <= p < |log.entries| ==> EntryAuthorized(key, log, p)
  }

  /** Handoffs are fresh: none is the initial one and none was drawn twice. */
  ghost predicate FreshHandoffs(log: CoinLog) {
    && (forall p :: 0 <= p < |log.entries| ==> log.entries[p].response.nextHandoff != INITIAL_HANDOFF)
    && (forall p, q :: 0 <= p < q < |log.entries| ==>
          log.entries[p].response.nextHandoff != log.entries[q].response.nextHandoff)
  }

  /** The volatile coin record is the fold of its log. */
  ghost predicate Explains(log: CoinLog, coinId: Token, coin: Coin) {
    && log.coinId == coinId
    && coin.authorization == LiveAuth(log)
    && coin.count == |log.entries|
    && (coin.last.None? <==> |log.entries| == 0)
    && (coin.last.Some? ==>
          var e := log.entries[|log.entries| - 1];
          coin.last.value == (e.request, e.response))
  }

  lemma AuthAtAppend(log: CoinLog, e: Entry, p: nat)
    requires p <= |log.entries|
    ensures AuthAt(Append(log, e), p) == AuthAt(log, p)
  {
  }

  lemma AppendChained(key: Token, log: CoinLog, e: Entry)
    requires Chained(key, log)
    requires Opened(e.request) == LiveAuth(log)
    requires e.request.nextCapHash != CapHash(e.request.cap)
    requires e.response.signature == Sig(Point(key), e.request.sighash, 0)
    ensures Chained(key, Append(log, e))
  {
    var log' := Append(log, e);
    forall p | 0 <= p < |log'.entries| ensures EntryAuthorized(key, log', p) {
      if p < |log.entries| {
        assert EntryAuthorized(key, log, p);
        AuthAtAppend(log, e, p);
      }
    }
  }

  /** A successful `sign` either replays the newest entry or appends exactly one; an error changes nothing. */
  lemma SignRefinesAppend(log: CoinLog, coinId: Token, coin: Coin, request: SignRequest, handoff: Token)
    requires Explains(log, coinId, coin) && Chained(coin.signingKey, log) && request.coinId == coinId
    ensures match SignCoin(coin, request, handoff)
            case Err(_) => true
            case Ok((coin', response)) =>
              || (coin' == coin && |log.entries| > 0 && log.entries[|log.entries| - 1] == Entry(request, response))
              || (&& Explains(Append(log, Entry(request, response)), coinId, coin')
                  && Chained(coin.signingKey, Append(log, Entry(request, response)))
                  && coin'.signingKey == coin.signingKey
                  && response.nextHandoff == handoff)
  {
    if SignCoin(coin, request, handoff).Ok? {
      var (coin', response) := SignCoin(coin, request, handoff).value;
      if !(coin.last.Some? && coin.last.value.0 == request) {
        AppendChained(coin.signingKey, log, Entry(request, response));
      }
    }
  }

  lemma CachedIsNewest(log: CoinLog, coinId: Token, coin: Coin)
    requires Explains(log, coinId, coin) && coin.last.Some?
    ensures |log.entries| > 0
    ensures log.entries[|log.entries| - 1] == Entry(coin.last.value.0, coin.last.value.1)
  {
  }

  /** Two positions of a log never open the same commitment. */
  lemma PositionsDiffer(log: CoinLog, p: nat, q: nat)
    requires FreshHandoffs(log) && p <= |log.entries| && q <= |log.entries| && p != q
    ensures AuthAt(log, p).handoff != AuthAt(log, q).handoff
  {
  }

  /** No request was ever signed twice. */
  lemma RequestsAreDistinct(key: Token, log: CoinLog, p: nat, q: nat)
    requires Chained(key, log) && FreshHandoffs(log)
    requires p < |log.entries| && q < |log.entries| && p != q
    ensures log.entries[p].request != log.entries[q].request
  {
    assert EntryAuthorized(key, log, p) && EntryAuthorized(key, log, q);
    PositionsDiffer(log, p, q);
  }

  /**
   Exactly which requests succeed, from the log alone: the newest one is answered
   from the cache, one that opens the live commitment is signed, and every
   older one is refused.
   */
  lemma SignAnswersFromLog(log: CoinLog, coinId: Token, coin: Coin, request: SignRequest, handoff: Token)
    requires Explains(log, coinId, coin) && Chained(coin.signingKey, log) && FreshHandoffs(log)
    requires request.coinId == coinId
    ensures var n := |log.entries|;
            && (n > 0 && request == log.entries[n - 1].request ==>
                  SignCoin(coin, request, handoff) == Ok((coin, log.entries[n - 1].response)))
            && (Opened(request) == LiveAuth(log) ==>
                  (SignCoin(coin, request, handoff).Ok? <==>
                   request.nextCapHash != CapHash(request.cap) && n < U64_MAX))
            && (forall p :: 0 <= p < n - 1 && log.entries[p].request == request ==>
                  SignCoin(coin, request, handoff) == Err(Unauthorized))
  {
    var n := |log.entries|;
    if n > 0 {
      assert EntryAuthorized(coin.signingKey, log, n - 1);
      if Opened(request) == LiveAuth(log) {
        PositionsDiffer(log, n - 1, n);
        assert request != log.entries[n - 1].request;
      }
    }
    forall p | 0 <= p < n - 1 && log.entries[p].request == request
      ensures SignCoin(coin, request, handoff) == Err(Unauthorized)
    {
      assert EntryAuthorized(coin.signingKey, log, p);
      PositionsDiffer(log, p, n);
      RequestsAreDistinct(coin.signingKey, log, p, n - 1);
    }
  }

  /** Every coin is the fold of its own log, and there are at most `limit`. */
  ghost predicate Refines(limit: nat, coins: Coins, logs: map<Token, CoinLog>) {
    && |coins| <= limit
    && logs.Keys == coins.Keys
    && forall id :: id in coins ==> Explains(logs[id], id, coins[id]) && Chained(coins[id].signingKey, logs[id])
  }

  lemma AppendRefines(limit: nat, coins: Coins, logs: map<Token, CoinLog>, id: Token, coin: Coin, log: CoinLog)
    requires Refines(limit, coins, logs) && id in coins
    requires Explains(log, id, coin) && Chained(coin.signingKey, log)
    ensures Refines(limit, coins[id := coin], logs[id := log])
  {
    assert coins[id := coin].Keys == coins.Keys;
    assert |coins[id := coin]| == |coins[id := coin].Keys| == |coins.Keys| == |coins|;
  }

  /** `Signer<LIMIT>`: one process lifetime. */
  class Signer {
    const limit: nat
    var coins: Coins
    ghost var logs: map<Token, CoinLog>

    ghost predicate Valid()
      reads this
    {
      Refines(limit, coins, logs)
    }

    constructor (limit: nat)
      ensures Valid() && coins == map[] && this.limit == limit
    {
      this.limit := limit;
      coins := map[];
      logs := map[];
    }

    method Register(request: RegisterRequest, signingKey: Token) returns (r: Result<CoinStatus, SignerError>)
      requires Valid()
      modifies this
      ensures Valid()
      ensures (coins, r) == RegisterCoin(old(coins), limit, request, signingKey)
      ensures forall id :: id in old(coins) ==> coins[id] == old(coins[id]) && logs[id] == old(logs[id])
      ensures r.Err? ==> coins == old(coins)
    {
      if request.coinId in coins {
        r := QueryStatus(request.coinId);
        return;
      }
      if |coins| >= limit {
        return Err(CapacityReached);
      }
      var auth := Authorization(request.coinId, request.initialCapHash, INITIAL_HANDOFF);
      var coin := Coin(signingKey, auth, 0, None);
      coins := coins[request.coinId := coin];
      logs := logs[request.coinId := CoinLog(request.coinId, request.initialCapHash, [])];
      r := Ok(coin.Status(request.coinId));
    }

    method QueryStatus(coinId: Token) returns (r: Result<CoinStatus, SignerError>)
      ensures r == StatusOf(coins, coinId)
    {
      if coinId in coins {
        r := Ok(coins[coinId].Status(coinId));
      } else {
        r := Err(UnknownCoin);
      }
    }

    method Sign(request: SignRequest, handoff: Token) returns (r: Result<SignResponse, SignerError>)
      requires Valid()
      modifies this
      ensures Valid()
      ensures (coins, r) == SignWith(old(coins), request, handoff)
      ensures r.Err? ==> coins == old(coins) && logs == old(logs)
      ensures forall id :: id in coins && id != request.coinId ==>
                coins[id] == old(coins[id]) && logs[id] == old(logs[id])
      ensures forall id :: id in coins ==> coins[id].signingKey == old(coins[id].signingKey)
      ensures r.Ok? ==>
                var before, after := old(logs[request.coinId]), logs[request.coinId];
                || (coins == old(coins) && logs == old(logs)
                    && |before.entries| > 0 && before.entries[|before.entries| - 1] == Entry(request, r.value))
                || after == Append(before, Entry(request, r.value))
    {
      hide Explains, Chained, EntryAuthorized, AuthAt, FreshHandoffs;
      if request.coinId !in coins {
        return Err(UnknownCoin);
      }
      var coin := coins[request.coinId];
      ghost var log := logs[request.coinId];
      SignRefinesAppend(log, request.coinId, coin, request, handoff);
      if coin.last.Some? && coin.last.value.0 == request {
        assert coins[request.coinId := coin] == coins;
        CachedIsNewest(log, request.coinId, coin);
        return Ok(coin.last.value.1);
      }
      var expected := Authorization(request.coinId, CapHash(request.cap), request.handoff);
      if expected != coin.authorization {
        return Err(Unauthorized);
      }
      if request.nextCapHash == CapHash(request.cap) {
        return Err(UnchangedCapability);
      }
      if coin.count == U64_MAX {
        return Err(SignatureCountOverflow);
      }
      var response := SignResponse(Sig(Point(coin.signingKey), request.sighash, 0), handoff);
      var auth := Authorization(request.coinId, request.nextCapHash, handoff);
      var signed := Coin(coin.signingKey, auth, coin.count + 1, Some((request, response)));
      assert SignCoin(coin, request, handoff) == Ok((signed, response));
      AppendRefines(limit, coins, logs, request.coinId, signed, Append(log, Entry(request, response)));
      coins := coins[request.coinId := signed];
      logs := logs[request.coinId := Append(log, Entry(request, response))];
      r := Ok(response);
    }

    method Handle(request: Request, drawn: Token) returns (r: Result<Response, SignerError>)
      requires Valid()
      modifies this
      ensures Valid()
      ensures match request
              case Register(q) =>
                var (c, s) := RegisterCoin(old(coins), limit, q, drawn);
                coins == c && r == (if s.Ok? then Ok(StatusResponse(s.value)) else Err(s.error))
              case Status(id) =>
                coins == old(coins)
                    && r == (if id in coins then Ok(StatusResponse(coins[id].Status(id))) else Err(UnknownCoin))
              case Sign(q) =>
                var (c, s) := SignWith(old(coins), q, drawn);
                coins == c && r == (if s.Ok? then Ok(SignatureResponse(s.value)) else Err(s.error))
    {
      match request {
        case Register(q) =>
          var s := Register(q, drawn);
          r := if s.Ok? then Ok(StatusResponse(s.value)) else Err(s.error);
        case Status(id) =>
          var s := QueryStatus(id);
          r := if s.Ok? then Ok(StatusResponse(s.value)) else Err(s.error);
        case Sign(q) =>
          var s := Sign(q, drawn);
          r := if s.Ok? then Ok(SignatureResponse(s.value)) else Err(s.error);
      }
    }
  }
}
