/**
 How large a transfer package can get. Every owner costs ten blocks of a delay
 that fits 16 bits, so a history has at most 6554 recoveries, and even the
 longest one stays below the 8 MiB limit: the size check that guards
 `begin_transfer` never refuses.
 */
module Capacity {
  import opened Wrappers
  import opened Bitcoin
  import opened Enclave
  import opened Client
  import opened Timing
  import opened Transfer
  import opened Validation
  import opened Wallet

  function Pow10(k: nat): nat {
    if k == 0 then 1 else 10 * Pow10(k - 1)
  }

  lemma {:induction false} DigitsBound(n: nat, k: nat)
    requires 0 < k && n < Pow10(k)
    ensures 1 <= Digits(n) <= k
  {
    if n < 10 {
    } else {
      assert k > 1 by { assert Pow10(1) == 10 * Pow10(0); }
      DigitsBound(n / 10, k - 1);
    }
  }

  lemma {:induction false} Powers()
    ensures Pow10(5) == 100_000 && Pow10(10) == 10_000_000_000 && Pow10(20) == 100_000_000_000_000_000_000
  {
    assert Pow10(5) == 10 * (10 * (10 * (10 * (10 * Pow10(0)))));
    assert Pow10(10) == 10 * (10 * (10 * (10 * (10 * Pow10(5)))));
    assert Pow10(15) == 10 * (10 * (10 * (10 * (10 * Pow10(10)))));
    assert Pow10(20) == 10 * (10 * (10 * (10 * (10 * Pow10(15)))));
  }

  /** The widest integers of a recovery: a 16-bit delay, a 32-bit index, a 64-bit amount. */
  lemma {:induction false} WidestDigits(delay: u32, vout: u32, amount: u64)
    requires delay <= U16_MAX
    ensures Digits(delay) <= 5 && Digits(vout) <= 10 && Digits(amount) <= 20
  {
    Powers();
    DigitsBound(delay, 5);
    DigitsBound(vout, 10);
    DigitsBound(amount, 20);
  }

  const MAX_RECOVERY_SIZE: nat := 910

  lemma {:induction false} FourItems(stack: seq<WitnessItem>)
    requires |stack| == 4
    ensures StackSize(stack) == HexSize(stack[0].Length()) + HexSize(stack[1].Length()) + HexSize(stack[2].Length())
                                + HexSize(stack[3].Length()) + 3
  {
    var s1, s2, s3 := stack[1..], stack[2..], stack[3..];
    assert s1[1..] == s2 && s2[1..] == s3 && s3[1..] == [];
    assert StackSize(s3) == HexSize(stack[3].Length()) + StackSize([]);
    assert StackSize(s2) == HexSize(stack[2].Length()) + 1 + StackSize(s3);
    assert StackSize(s1) == HexSize(stack[1].Length()) + 1 + StackSize(s2);
  }

  lemma {:induction false} OneInOneOut(input: TxIn, output: TxOut)
    ensures InputListSize([input]) == InputSize(input) && OutputListSize([output]) == OutputSize(output)
  {
    assert [input][1..] == [] && [output][1..] == [];
  }

  /** No canonical recovery, signed or as the unsigned template, is larger than this. */
  lemma {:induction false} RecoverySizeBound(
      outpoint: OutPoint, amount: u64, withdrawal: PubKey, delay: u32, stack: seq<WitnessItem>)
    requires delay <= U16_MAX && |stack| == 4
    requires stack[0].Length() == stack[1].Length() == 64 && stack[2].Length() == 68 && stack[3].Length() == 33
    ensures RecoverySize(SignedRecovery(WithStack(RecoveryTx(outpoint, amount, withdrawal, delay), stack), withdrawal,
                                        delay))
         <= MAX_RECOVERY_SIZE
  {
    var tx := WithStack(RecoveryTx(outpoint, amount, withdrawal, delay), stack);
    var input, output := TxIn(outpoint, [], delay, stack), TxOut(amount, P2tr(withdrawal));
    assert tx.inputs == [input] && tx.outputs == [output];
    OneInOneOut(input, output);
    FourItems(stack);
    WidestDigits(delay, outpoint.vout, amount);
    assert Digits(TRUC_VERSION) == 1 && Digits(0) == 1;
  }

  lemma {:induction false} VerifiedSizeBound(metadata: CoinMetadata, recovery: SignedRecovery)
    requires VerifyRecovery(metadata, recovery).Ok?
    ensures RecoverySize(recovery) <= MAX_RECOVERY_SIZE
  {
    VerifyRecoveryIsExact(metadata, recovery);
    var body := RecoveryTx(metadata.outpoint, metadata.amount, recovery.withdrawal, recovery.delay);
    var e: nat, c: nat :| recovery.tx == WithStack(body, SignedStack(metadata, body, e, c));
    RecoverySizeBound(metadata.outpoint, metadata.amount, recovery.withdrawal, recovery.delay,
                      SignedStack(metadata, body, e, c));
  }

  lemma {:induction false} HistorySizeBound(history: seq<SignedRecovery>)
    requires forall p :: 0 <= p < |history| ==> RecoverySize(history[p]) <= MAX_RECOVERY_SIZE
    ensures HistorySize(history) <= (MAX_RECOVERY_SIZE + 1) * |history|
  {
    if history == [] {
    } else {
      HistorySizeBound(history[1..]);
    }
  }

  lemma {:induction false} MetadataSizeBound(metadata: CoinMetadata)
    ensures MetadataSize(metadata) <= 500
  {
    ByteItemsBound(TokenBytes(metadata.keys.coinId));
    WidestDigits(0, metadata.outpoint.vout, metadata.amount);
  }

  /** A payload with up to 9000 canonical recoveries is below the limit. */
  lemma {:induction false} PayloadFits(metadata: CoinMetadata, history: seq<SignedRecovery>)
    requires |history| <= 9000
    requires forall p :: 0 <= p < |history| ==> RecoverySize(history[p]) <= MAX_RECOVERY_SIZE
    ensures ValidatePlaintextSize(JsonSize(MaxBytes(32), MaxBytes(32), metadata, history)).Ok?
  {
    HistorySizeBound(history);
    MetadataSizeBound(metadata);
    ByteItemsBound(MaxBytes(32));
  }

  /** One more recovery always fits after a history the signer's rules allow. */
  lemma {:induction false} NextPackageFits(
      metadata: CoinMetadata, history: seq<SignedRecovery>, prepared: PreparedRecovery)
    requires |history| <= 6554 && VerifyRecoveries(metadata, history).Ok? && prepared.delay <= U16_MAX
    requires prepared.tx == RecoveryTx(metadata.outpoint, metadata.amount, prepared.withdrawal, prepared.delay)
    ensures AttemptFits(metadata, history, prepared)
  {
    hide VerifyRecovery, RecoverySize;
    VerifyRecoveriesIsExact(metadata, history);
    var keys := prepared.metadata.keys;
    var stack := [Filler(64), Filler(64), LeafItem(keys.client, keys.enclave), ControlItem(keys.client, keys.enclave)];
    var template := SerializationTemplate(prepared).value;
    assert prepared.tx.inputs[0].stack + stack == stack;
    RecoverySizeBound(metadata.outpoint, metadata.amount, prepared.withdrawal, prepared.delay, stack);
    var all := history + [template];
    forall p | 0 <= p < |all| ensures RecoverySize(all[p]) <= MAX_RECOVERY_SIZE {
      if p < |history| {
        VerifiedSizeBound(metadata, history[p]);
      }
    }
    PayloadFits(metadata, all);
  }

  /** What `prepare_recovery` prepares is the canonical recovery. */
  lemma PreparedIsRecovery(
      metadata: CoinMetadata, status: CoinStatus, clientSecret: Token, cap: Token, handoff: Token, nextCapHash: CapHash,
      withdrawal: PubKey, delay: u32, confirmations: u32)
    requires PrepareRecovery(metadata, status, clientSecret, cap, handoff, nextCapHash, withdrawal, delay,
                             confirmations).Ok?
    ensures var p := PrepareRecovery(metadata, status, clientSecret, cap, handoff, nextCapHash, withdrawal, delay,
                                     confirmations).value.1;
            p.tx == RecoveryTx(metadata.outpoint, metadata.amount, p.withdrawal, p.delay) && p.delay <= U16_MAX
  {
  }

  lemma {:induction false} AttemptNeverTooLarge(
      coin: WalletCoin, metadata: CoinMetadata, request: TransferRequest, status: CoinStatus, confirmations: u32,
      minReaction: u32)
    requires coin.history != [] && coin.currentCap.Some? && coin.currentHandoff.Some?
    requires |coin.history| <= 6554 && VerifyRecoveries(metadata, coin.history).Ok?
    ensures TransferAttempt(coin, metadata, request, status, confirmations, minReaction) != Err(TooLarge)
  {
    if TransferAttempt(coin, metadata, request, status, confirmations, minReaction) == Err(TooLarge) {
      var p := TooLargeMeans(coin, metadata, request, status, confirmations, minReaction);
      NextPackageFits(metadata, coin.history, p);
    }
  }

  lemma TooLargeMeans(
      coin: WalletCoin, metadata: CoinMetadata, request: TransferRequest, status: CoinStatus, confirmations: u32,
      minReaction: u32)
      returns (p: PreparedRecovery)
    requires coin.history != [] && coin.currentCap.Some? && coin.currentHandoff.Some?
    requires TransferAttempt(coin, metadata, request, status, confirmations, minReaction) == Err(TooLarge)
    ensures p.tx == RecoveryTx(metadata.outpoint, metadata.amount, p.withdrawal, p.delay) && p.delay <= U16_MAX
    ensures !AttemptFits(metadata, coin.history, p)
  {
    hide JsonSize, PrepareRecovery;
    var cap, handoff := coin.currentCap.value, coin.currentHandoff.value;
    var delay: u32 := Last(coin.history).delay - DELAY_STEP;
    var prepared := PrepareRecovery(metadata, status, coin.clientSecret, cap, handoff, request.nextCapHash,
                                    request.withdrawal,
                                    delay, confirmations);
    assert prepared.Ok?;
    p := prepared.value.1;
    assert SerializationTemplate(p).Ok?;
    PreparedIsRecovery(metadata, status, coin.clientSecret, cap, handoff, request.nextCapHash, request.withdrawal,
                       delay,
                       confirmations);
  }

  /**
   For every wallet, request and observation: "transfer package exceeds 8 MiB
   ciphertext limit" is not among the errors of `begin_transfer`, whatever the
   length of the history. The checks before it let no history grow that long.
   */
  lemma {:induction false} BeginNeverTooLarge(
      w: WalletState, network: NetworkId, request: TransferRequest, status: CoinStatus, observed: ObservedFunding,
      minConfirmations: u32, minReaction: u32)
    ensures BeginTransfer(w, network, request, status, observed, minConfirmations, minReaction) != Err(TooLarge)
  {
    if BeginTransfer(w, network, request, status, observed, minConfirmations, minReaction) == Err(TooLarge) {
      var coin := w.coin.value;
      HistoryLengthIsBounded(coin.metadata.value, status, coin.clientSecret, coin.currentCap.value,
                             coin.currentHandoff.value,
                             Point(coin.withdrawalSecret.value), observed.confirmations, coin.history);
      AttemptNeverTooLarge(coin, coin.metadata.value, request, status, observed.confirmations, minReaction);
    }
  }

}
