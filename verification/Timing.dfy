/** Relative delays over a whole chain of owners. */
module Timing {
  import opened Wrappers
  import opened Bitcoin
  import opened Client

  /** BIP 68, section "Specification": a block delay is satisfied once its input has that many confirmations. */
  predicate Final(delay: nat, confirmations: nat) {
    confirmations >= delay
  }

  /** Over any accepted windows the delays fall by exactly one step per owner. */
  lemma {:induction false} DelaysStepExactly(confirmations: u32, history: seq<SignedRecovery>, i: nat, j: nat)
    requires VerifyWindows(confirmations, history).Ok?
    requires i <= j < |history|
    ensures history[i].delay == history[j].delay + DELAY_STEP * (j - i)
    decreases j - i
  {
    if i == j {
    } else {
      DelaysStepExactly(confirmations, history, i, j - 1);
      VerifyWindowsIsExact(confirmations, history);
      assert WindowHolds(confirmations, history, j);
    }
  }

  /**
   The exclusive reaction window: at any later confirmation count the final
   recoveries of a verified history are exactly a suffix, one more each
   DELAY_STEP blocks, starting with the newest owner alone.
   */
  lemma ExclusiveReactionWindow(
      metadata: CoinMetadata, status: Enclave.CoinStatus, clientSecret: Token, cap: Token, handoff: Token,
      latest: PubKey, confirmations: u32, history: seq<SignedRecovery>, i: nat, later: nat)
    requires VerifyHistory(metadata, status, clientSecret, cap, handoff, latest, confirmations, history).Ok?
    requires i < |history|
    ensures var newest := Last(history).delay;
            && (Final(history[i].delay, later) <==> later >= newest + DELAY_STEP * (|history| - 1 - i))
            && (later < newest + DELAY_STEP && i < |history| - 1 ==> !Final(history[i].delay, later))
            && newest > confirmations
  {
    DelaysStepExactly(confirmations, history, i, |history| - 1);
  }

  /** Transfers terminate: every step costs DELAY_STEP blocks of a delay that starts at most at 65535. */
  lemma HistoryLengthIsBounded(
      metadata: CoinMetadata, status: Enclave.CoinStatus, clientSecret: Token, cap: Token, handoff: Token,
      latest: PubKey, confirmations: u32, history: seq<SignedRecovery>)
    requires VerifyHistory(metadata, status, clientSecret, cap, handoff, latest, confirmations, history).Ok?
    ensures |history| <= 6554
    ensures DELAY_STEP * (|history| - 1) + confirmations < history[0].delay <= U16_MAX
  {
    DelaysStepExactly(confirmations, history, 0, |history| - 1);
    VerifyRecoveriesIsExact(metadata, history);
    assert VerifyRecovery(metadata, history[0]).Ok?;
  }

  /** Recoveries of one verified history have pairwise distinct transaction ids. */
  lemma {:induction false} HistoryTxidsAreDistinct(
      metadata: CoinMetadata, confirmations: u32, history: seq<SignedRecovery>, i: nat, j: nat)
    requires VerifyRecoveries(metadata, history).Ok? && VerifyWindows(confirmations, history).Ok?
    requires i < j < |history|
    ensures ComputeTxid(history[i].tx) != ComputeTxid(history[j].tx)
  {
    DelaysStepExactly(confirmations, history, i, j);
    VerifyRecoveriesIsExact(metadata, history);
    GenuineTxid(metadata, history[i]);
    GenuineTxid(metadata, history[j]);
    assert RecoveryTx(metadata.outpoint, metadata.amount, history[i].withdrawal, history[i].delay).inputs[0].sequence
        == history[i].delay;
    assert RecoveryTx(metadata.outpoint, metadata.amount, history[j].withdrawal, history[j].delay).inputs[0].sequence
        == history[j].delay;
  }

  /** A verified recovery's txid is that of the canonical transaction, whatever its witness. */
  lemma GenuineTxid(metadata: CoinMetadata, recovery: SignedRecovery)
    requires VerifyRecovery(metadata, recovery).Ok?
    ensures ComputeTxid(recovery.tx)
            == TxidOf(RecoveryTx(metadata.outpoint, metadata.amount, recovery.withdrawal, recovery.delay))
  {
    VerifyRecoveryIsExact(metadata, recovery);
    var body := RecoveryTx(metadata.outpoint, metadata.amount, recovery.withdrawal, recovery.delay);
    var e: nat, c: nat :| recovery.tx == WithStack(body, SignedStack(metadata, body, e, c));
    RecoveryTxStrips(metadata.outpoint, metadata.amount, recovery.withdrawal, recovery.delay,
                     SignedStack(metadata, body, e, c));
  }
}
