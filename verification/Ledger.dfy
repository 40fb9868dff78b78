/** Reading recoveries back out of the signer's log. */
module Ledger {
  import opened Wrappers
  import opened Bitcoin
  import opened Enclave
  import opened Client
  import opened Timing

  /** The transaction a signed request committed to. */
  function BodyOf(e: Entry): Tx {
    if e.request.sighash.ScriptSpend? then e.request.sighash.tx else Tx(0, 0, [], [])
  }

  function DelayOf(e: Entry): u32 {
    if BodyOf(e).inputs != [] then BodyOf(e).inputs[0].sequence else 0
  }

  function PayeeOf(e: Entry): PubKey {
    var tx := BodyOf(e);
    if tx.outputs != [] && tx.outputs[0].script.P2tr? then tx.outputs[0].script.internal else Point(0)
  }

  /** The recovery that a log entry completes to, once its client signature is added. */
  function RecoveryOf(e: Entry): SignedRecovery {
    var tx := BodyOf(e);
    if !e.request.sighash.ScriptSpend? || tx.inputs == [] then SignedRecovery(tx, PayeeOf(e), DelayOf(e))
    else
      var s := e.request.sighash;
      var keys := CoinKeys(e.request.coinId, s.client, s.enclave);
      SignedRecovery(WithStack(tx, RecoveryWitness(e.response.signature, Sig(s.client, s, 0), keys)), PayeeOf(e),
                     DelayOf(e))
  }

  function Recoveries(entries: seq<Entry>): (r: seq<SignedRecovery>)
    ensures |r| == |entries|
    ensures forall p :: 0 <= p < |entries| ==> r[p] == RecoveryOf(entries[p])
  {
    seq(|entries|, p requires 0 <= p < |entries| => RecoveryOf(entries[p]))
  }

  /** A request for the canonical recovery of this coin. */
  predicate CanonicalEntry(m: CoinMetadata, e: Entry) {
    && e.request.coinId == m.keys.coinId
    && CanonicalRecovery(m.outpoint, m.amount, PayeeOf(e), DelayOf(e)).Ok?
    && e.request.sighash == RecoverySighash(RecoveryTx(m.outpoint, m.amount, PayeeOf(e), DelayOf(e)), m.amount, m.keys)
  }

  predicate DelayStepsAt(log: CoinLog, p: nat) {
    0 < p < |log.entries| && DelayOf(log.entries[p - 1]) == DelayOf(log.entries[p]) + DELAY_STEP
  }

  /** Every signature of this log is for a canonical recovery of one coin, each one step earlier than the last. */
  ghost predicate GoodLog(m: CoinMetadata, log: CoinLog) {
    && (forall p :: 0 <= p < |log.entries| ==> CanonicalEntry(m, log.entries[p]))
    && (forall p :: 0 < p < |log.entries| ==> DelayStepsAt(log, p))
  }

  lemma RecoveriesNext(log: CoinLog, n: nat)
    requires n < |log.entries|
    ensures Recoveries(log.entries[..n + 1]) == Recoveries(log.entries[..n]) + [RecoveryOf(log.entries[n])]
  {
  }

  /** What a request for a canonical recovery says about the entry it becomes. */
  lemma PreparedEntry(m: CoinMetadata, withdrawal: PubKey, delay: u32, request: SignRequest, response: SignResponse)
    requires CanonicalRecovery(m.outpoint, m.amount, withdrawal, delay).Ok?
    requires request.coinId == m.keys.coinId
    requires request.sighash == RecoverySighash(RecoveryTx(m.outpoint, m.amount, withdrawal, delay), m.amount, m.keys)
    ensures var e := Entry(request, response);
            && CanonicalEntry(m, e) && PayeeOf(e) == withdrawal && DelayOf(e) == delay
            && RecoveryOf(e) == CompletedRecovery(m, withdrawal, delay, response.signature)
  {
    RecoveryTxStrips(m.outpoint, m.amount, withdrawal, delay, []);
  }

  lemma RecoveryVerifies(m: CoinMetadata, e: Entry)
    requires CanonicalEntry(m, e) && m.keys.client != m.keys.enclave
    requires e.response.signature == Sig(m.keys.enclave, e.request.sighash, 0)
    ensures VerifyRecovery(m, RecoveryOf(e)).Ok?
    ensures RecoveryOf(e).withdrawal == PayeeOf(e) && RecoveryOf(e).delay == DelayOf(e)
  {
    PreparedEntry(m, PayeeOf(e), DelayOf(e), e.request, e.response);
    var r := RecoveryOf(e);
    var body := RecoveryTx(m.outpoint, m.amount, PayeeOf(e), DelayOf(e));
    assert r.tx == WithStack(body, SignedStack(m, body, 0, 0));
    VerifyRecoveryIsExact(m, r);
  }

  /** Any prefix of a good log is a history that every owner and every public reader accepts. */
  lemma {:induction false} PrefixVerifies(m: CoinMetadata, key: Token, log: CoinLog, n: nat, confirmations: u32)
    requires GoodLog(m, log) && Chained(key, log) && m.keys.enclave == Point(key) && m.keys.client != m.keys.enclave
    requires 0 < n <= |log.entries| && confirmations < DelayOf(log.entries[n - 1])
    ensures var history := Recoveries(log.entries[..n]);
            && VerifyRecoveries(m, history).Ok?
            && VerifyWindows(confirmations, history).Ok?
            && Last(history).delay == DelayOf(log.entries[n - 1])
            && Last(history).withdrawal == PayeeOf(log.entries[n - 1])
  {
    hide VerifyRecovery, CanonicalEntry, RecoveryOf;
    var history := Recoveries(log.entries[..n]);
    forall p | 0 <= p < n ensures VerifyRecovery(m, history[p]).Ok? && history[p].delay == DelayOf(log.entries[p])
                               && history[p].withdrawal == PayeeOf(log.entries[p])
    {
      assert EntryAuthorized(key, log, p) && CanonicalEntry(m, log.entries[p]);
      RecoveryVerifies(m, log.entries[p]);
    }
    VerifyRecoveriesIsExact(m, history);
    forall p | 0 < p < n ensures WindowHolds(confirmations, history, p) {
      assert DelayStepsAt(log, p);
      LogDelays(log, m, p, n - 1);
    }
    VerifyWindowsIsExact(confirmations, history);
  }

  lemma {:induction false} LogDelays(log: CoinLog, m: CoinMetadata, p: nat, q: nat)
    requires GoodLog(m, log) && p <= q < |log.entries|
    ensures DelayOf(log.entries[p]) == DelayOf(log.entries[q]) + DELAY_STEP * (q - p)
    decreases q - p
  {
    if p == q {
    } else {
      LogDelays(log, m, p, q - 1);
      assert DelayStepsAt(log, q);
    }
  }

  /** The recoveries of one log have pairwise distinct txids. */
  lemma LogTxidsAreDistinct(m: CoinMetadata, key: Token, log: CoinLog, p: nat, q: nat)
    requires GoodLog(m, log) && Chained(key, log) && m.keys.enclave == Point(key) && m.keys.client != m.keys.enclave
    requires p < q < |log.entries|
    ensures ComputeTxid(RecoveryOf(log.entries[p]).tx) != ComputeTxid(RecoveryOf(log.entries[q]).tx)
  {
    LogDelays(log, m, p, q);
    LogTxid(m, key, log, p);
    LogTxid(m, key, log, q);
  }

  lemma LogTxid(m: CoinMetadata, key: Token, log: CoinLog, p: nat)
    requires GoodLog(m, log) && Chained(key, log) && m.keys.enclave == Point(key) && m.keys.client != m.keys.enclave
    requires p < |log.entries|
    ensures var txid := ComputeTxid(RecoveryOf(log.entries[p]).tx);
            txid.TxidOf? && |txid.stripped.inputs| == 1 && txid.stripped.inputs[0].sequence == DelayOf(log.entries[p])
  {
    var e := log.entries[p];
    assert EntryAuthorized(key, log, p) && CanonicalEntry(m, e);
    RecoveryVerifies(m, e);
    GenuineTxid(m, RecoveryOf(e));
  }
}
