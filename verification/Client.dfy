/** The untrusted client library of client/src/lib.rs: recoveries, their checks and the exit child. */
module Client {
  import opened Wrappers
  import opened Bitcoin
  import opened Enclave

  datatype NetworkId = Mutinynet | Mainnet | Regtest

  const DELAY_STEP: u32 := 10
  const TRUC_VERSION: nat := 3

  datatype ClientError =
    | ResponseMismatch
    | MetadataMismatch
    | WrongClientKey
    | EqualSigningKeys
    | InvalidEnclaveSignature
    | InvalidClientSignature
    | FundingMismatch
    | UnsafeDelay
    | TransactionMismatch
    | InvalidWitness
    | HistoryMismatch
    | InvalidOutpoint
    | AmountTooLarge
    | DustOutput
    | InvalidDelay
    | WithdrawalKeyMismatch

  datatype CoinKeys = CoinKeys(coinId: Token, client: PubKey, enclave: PubKey) {
    function Validate(): Result<(), ClientError> {
      Ensure(client != enclave, MetadataMismatch)
    }
  }

  datatype CoinMetadata = CoinMetadata(keys: CoinKeys, network: NetworkId, outpoint: OutPoint, amount: u64)

  datatype Registration = Registration(request: RegisterRequest, client: PubKey)

  datatype SignedRecovery = SignedRecovery(tx: Tx, withdrawal: PubKey, delay: u32)

  datatype PreparedRecovery = PreparedRecovery(
    request: SignRequest,
    metadata: CoinMetadata,
    tx: Tx,
    withdrawal: PubKey,
    delay: u32)

  // ---------------------------------------------------------------------------
  // Registration and live status.

  function CompleteRegistration(registration: Registration, status: CoinStatus): Result<CoinKeys, ClientError> {
    var request := registration.request;
    if status.coinId != request.coinId
       || status.count != 0
       || status.authorization != Authorization(request.coinId, request.initialCapHash, INITIAL_HANDOFF)
    then Err(ResponseMismatch)
    else if registration.client == status.signingKey then Err(EqualSigningKeys)
    else Ok(CoinKeys(request.coinId, registration.client, status.signingKey))
  }

  function VerifyStatus(keys: CoinKeys, status: CoinStatus): Result<(), ClientError> {
    var _ :- keys.Validate();
    Ensure(status.coinId == keys.coinId && status.signingKey == keys.enclave, ResponseMismatch)
  }

  function VerifySignResponse(request: SignRequest, previousCount: u64, status: CoinStatus, response: SignResponse)
    : Result<(), ClientError>
  {
    if previousCount == U64_MAX then Err(ResponseMismatch)
    else if status.coinId != request.coinId
            || status.count != previousCount + 1
            || status.authorization != Authorization(request.coinId, request.nextCapHash, response.nextHandoff)
    then Err(ResponseMismatch)
    else Ensure(VerifySchnorr(response.signature, request.sighash, status.signingKey), InvalidEnclaveSignature)
  }

  // ---------------------------------------------------------------------------
  // Recovery transactions.

  function FundingScript(keys: CoinKeys): Script {
    Statechain(keys.client, keys.enclave)
  }

  function RecoveryTx(outpoint: OutPoint, amount: u64, withdrawal: PubKey, delay: u32): Tx {
    Tx(TRUC_VERSION, 0, [TxIn(outpoint, [], delay, [])], [TxOut(amount, P2tr(withdrawal))])
  }

  /** The one recovery transaction these values allow. */
  function CanonicalRecovery(outpoint: OutPoint, amount: u64, withdrawal: PubKey, delay: u32): Result<Tx, ClientError> {
    if outpoint.IsNull() then Err(InvalidOutpoint)
    else if amount > MAX_MONEY then Err(AmountTooLarge)
    else if delay > U16_MAX then Err(InvalidDelay)
    else if delay == 0 then Err(InvalidDelay)
    else if amount < MinimalNonDust(P2tr(withdrawal)) then Err(DustOutput)
    else Ok(RecoveryTx(outpoint, amount, withdrawal, delay))
  }

  /** Commits to the transaction without witnesses and to the exact funding output. */
  function RecoverySighash(tx: Tx, amount: u64, keys: CoinKeys): Sighash {
    ScriptSpend(Strip(tx), TxOut(amount, FundingScript(keys)), keys.client, keys.enclave)
  }

  function RequireFutureDelay(confirmations: u32, delay: u32): Result<(), ClientError> {
    Ensure(delay > confirmations, UnsafeDelay)
  }

  function PrepareRecovery(
      metadata: CoinMetadata,
      status: CoinStatus,
      clientSecret: Token,
      cap: Token,
      handoff: Token,
      nextCapHash: CapHash,
      withdrawal: PubKey,
      delay: u32,
      confirmations: u32)
    : Result<(SignRequest, PreparedRecovery), ClientError>
  {
    var _ :- metadata.keys.Validate();
    var _ :- VerifyStatus(metadata.keys, status);
    if status.authorization != Authorization(metadata.keys.coinId, CapHash(cap), handoff)
    then Err(ResponseMismatch) else
    if nextCapHash == CapHash(cap) then Err(ResponseMismatch) else
    var _ :- RequireFutureDelay(confirmations, delay);
    if Point(clientSecret) != metadata.keys.client then Err(WrongClientKey) else
    var tx :- CanonicalRecovery(metadata.outpoint, metadata.amount, withdrawal, delay);
    var sighash := RecoverySighash(tx, metadata.amount, metadata.keys);
    var request := SignRequest(metadata.keys.coinId, cap, handoff, nextCapHash, sighash);
    Ok((request, PreparedRecovery(request, metadata, tx, withdrawal, delay)))
  }

  function RecoveryWitness(enclave: Signature, client: Signature, keys: CoinKeys): seq<WitnessItem> {
    [SigItem(enclave), SigItem(client), LeafItem(keys.client, keys.enclave), ControlItem(keys.client, keys.enclave)]
  }

  function WithStack(tx: Tx, stack: seq<WitnessItem>): Tx
    requires |tx.inputs| > 0
  {
    tx.(inputs := tx.inputs[0 := tx.inputs[0].(stack := stack)])
  }

  function VerifySignedRecovery(tx: Tx, amount: u64, keys: CoinKeys): Result<(), ClientError> {
    var _ :- keys.Validate();
    if !(|tx.inputs| == 1) then Err(InvalidWitness) else
    var stack := if |tx.inputs| == 1 then tx.inputs[0].stack else [];
    if |stack| != 4 then Err(InvalidWitness)
    else if stack[0].Length() != 64 || stack[1].Length() != 64 then Err(InvalidWitness)
    else if stack[2] != LeafItem(keys.client, keys.enclave) || stack[3] != ControlItem(keys.client, keys.enclave) then
      Err(InvalidWitness)
    else
      var sighash := RecoverySighash(tx, amount, keys);
      if !(stack[0].SigItem? && VerifySchnorr(stack[0].signature, sighash, keys.enclave))
           then Err(InvalidEnclaveSignature)
      else Ensure(stack[1].SigItem? && VerifySchnorr(stack[1].signature, sighash, keys.client), InvalidClientSignature)
  }

  function CompleteRecovery(
      request: SignRequest, response: SignResponse, prepared: PreparedRecovery, clientSecret: Token)
    : Result<SignedRecovery, ClientError>
  {
    var metadata := prepared.metadata;
    if prepared.request != request then Err(ResponseMismatch) else
    var _ :- metadata.keys.Validate();
    if request.coinId != metadata.keys.coinId then Err(ResponseMismatch) else
    if Point(clientSecret) != metadata.keys.client then Err(WrongClientKey) else
    var expected :- CanonicalRecovery(metadata.outpoint, metadata.amount, prepared.withdrawal, prepared.delay);
    if prepared.tx != expected then Err(TransactionMismatch) else
    var sighash := RecoverySighash(prepared.tx, metadata.amount, metadata.keys);
    if request.sighash != sighash then Err(TransactionMismatch) else
    if !VerifySchnorr(response.signature, sighash, metadata.keys.enclave) then Err(InvalidEnclaveSignature) else
    var client := Sig(Point(clientSecret), sighash, 0);
    if |prepared.tx.inputs| == 0 then Err(TransactionMismatch)
    else
      var tx := WithStack(prepared.tx, RecoveryWitness(response.signature, client, metadata.keys));
      var _ :- VerifySignedRecovery(tx, metadata.amount, metadata.keys);
      Ok(SignedRecovery(tx, prepared.withdrawal, prepared.delay))
  }

  function VerifyRecovery(metadata: CoinMetadata, recovery: SignedRecovery): Result<(), ClientError> {
    var _ :- metadata.keys.Validate();
    var expected :- CanonicalRecovery(metadata.outpoint, metadata.amount, recovery.withdrawal, recovery.delay);
    if |recovery.tx.inputs| != 1 || WithStack(recovery.tx, []) != expected then Err(TransactionMismatch)
    else VerifySignedRecovery(recovery.tx, metadata.amount, metadata.keys)
  }

  /** `for recovery in history { verify_recovery(..)? }` */
  function VerifyRecoveries(metadata: CoinMetadata, history: seq<SignedRecovery>): Result<(), ClientError> {
    if history == [] then Ok(())
    else
      var _ :- VerifyRecovery(metadata, history[0]);
      VerifyRecoveries(metadata, history[1..])
  }

  function ValidateReactionWindow(confirmations: u32, older: u32, newer: u32): Result<(), ClientError> {
    if older < DELAY_STEP || older - DELAY_STEP != newer then Err(TransactionMismatch)
    else RequireFutureDelay(confirmations, newer)
  }

  /** `for pair in history.windows(2) { validate_reaction_window(..)? }` */
  function VerifyWindows(confirmations: u32, history: seq<SignedRecovery>): Result<(), ClientError> {
    if |history| < 2 then Ok(())
    else
      var _ :- ValidateReactionWindow(confirmations, history[0].delay, history[1].delay);
      VerifyWindows(confirmations, history[1..])
  }

  function Last<T>(s: seq<T>): T
    requires s != []
  {
    s[|s| - 1]
  }

  function VerifyHistory(
      metadata: CoinMetadata,
      status: CoinStatus,
      clientSecret: Token,
      cap: Token,
      handoff: Token,
      latestWithdrawal: PubKey,
      confirmations: u32,
      history: seq<SignedRecovery>)
    : Result<(), ClientError>
  {
    var _ :- VerifyStatus(metadata.keys, status);
    if Point(clientSecret) != metadata.keys.client then Err(WrongClientKey) else
    if status.authorization != Authorization(metadata.keys.coinId, CapHash(cap), handoff)
       || status.count != |history|
       || history == []
       || Last(history).withdrawal != latestWithdrawal
    then Err(HistoryMismatch)
    else
      var _ :- VerifyRecoveries(metadata, history);
      var _ :- VerifyWindows(confirmations, history);
      Ensure(Last(history).delay > confirmations, UnsafeDelay)
  }

  function VerifyFundingUtxo(metadata: CoinMetadata, outpoint: OutPoint, output: TxOut): Result<(), ClientError> {
    var _ :- metadata.keys.Validate();
    Ensure(outpoint == metadata.outpoint && output == TxOut(metadata.amount, FundingScript(metadata.keys)),
           FundingMismatch)
  }

  // ---------------------------------------------------------------------------
  // What the checks mean.

  /** A recovery that both signers of `keys` signed for exactly this funding output. */
  ghost predicate GenuineRecovery(metadata: CoinMetadata, recovery: SignedRecovery) {
    && metadata.keys.client != metadata.keys.enclave
    && CanonicalRecovery(metadata.outpoint, metadata.amount, recovery.withdrawal, recovery.delay).Ok?
    && var body := RecoveryTx(metadata.outpoint, metadata.amount, recovery.withdrawal, recovery.delay);
       exists e: nat, c: nat ::
         recovery.tx == WithStack(body, SignedStack(metadata, body, e, c))
  }

  function SignedStack(metadata: CoinMetadata, body: Tx, e: nat, c: nat): seq<WitnessItem> {
    var sighash := RecoverySighash(body, metadata.amount, metadata.keys);
    RecoveryWitness(Sig(metadata.keys.enclave, sighash, e), Sig(metadata.keys.client, sighash, c), metadata.keys)
  }

  lemma RecoveryTxStrips(outpoint: OutPoint, amount: u64, withdrawal: PubKey, delay: u32, stack: seq<WitnessItem>)
    ensures var body := RecoveryTx(outpoint, amount, withdrawal, delay);
            && Strip(body) == body
            && Strip(WithStack(body, stack)) == body
            && WithStack(WithStack(body, stack), []) == body
  {
    var body := RecoveryTx(outpoint, amount, withdrawal, delay);
    assert Strip(body).inputs == body.inputs;
    assert Strip(WithStack(body, stack)).inputs == body.inputs;
    assert WithStack(WithStack(body, stack), []).inputs == body.inputs;
  }

  /** `verify_recovery` accepts exactly the genuine recoveries, whichever valid signatures they carry. */
  lemma VerifyRecoveryIsExact(metadata: CoinMetadata, recovery: SignedRecovery)
    ensures VerifyRecovery(metadata, recovery).Ok? <==> GenuineRecovery(metadata, recovery)
  {
    var body := RecoveryTx(metadata.outpoint, metadata.amount, recovery.withdrawal, recovery.delay);
    if VerifyRecovery(metadata, recovery).Ok? {
      var stack := recovery.tx.inputs[0].stack;
      assert recovery.tx.inputs == [recovery.tx.inputs[0]];
      assert recovery.tx == WithStack(body, stack) by {
        assert WithStack(recovery.tx, []) == body;
        assert WithStack(body, stack).inputs == [recovery.tx.inputs[0]];
      }
      RecoveryTxStrips(metadata.outpoint, metadata.amount, recovery.withdrawal, recovery.delay, stack);
      assert stack == SignedStack(metadata, body, stack[0].signature.nonce, stack[1].signature.nonce);
    }
    if GenuineRecovery(metadata, recovery) {
      var e: nat, c: nat :| recovery.tx == WithStack(body, SignedStack(metadata, body, e, c));
      RecoveryTxStrips(metadata.outpoint, metadata.amount, recovery.withdrawal, recovery.delay,
                       SignedStack(metadata, body, e, c));
    }
  }

  lemma {:induction false} VerifyRecoveriesIsExact(metadata: CoinMetadata, history: seq<SignedRecovery>)
    ensures VerifyRecoveries(metadata, history).Ok?
            <==> forall i :: 0 <= i < |history| ==> VerifyRecovery(metadata, history[i]).Ok?
  {
    if history == [] {
    } else {
      VerifyRecoveriesIsExact(metadata, history[1..]);
      assert forall i :: 0 < i < |history| ==> history[i] == history[1..][i - 1];
    }
  }

  /** Recovery `i` matures exactly one step before its predecessor and is not final yet. */
  ghost predicate WindowHolds(confirmations: u32, history: seq<SignedRecovery>, i: nat)
    requires 0 < i < |history|
  {
    history[i - 1].delay == history[i].delay + DELAY_STEP && history[i].delay > confirmations
  }

  lemma {:induction false} VerifyWindowsIsExact(confirmations: u32, history: seq<SignedRecovery>)
    ensures VerifyWindows(confirmations, history).Ok?
            <==> forall i :: 0 < i < |history| ==> WindowHolds(confirmations, history, i)
  {
    if |history| < 2 {
    } else {
      var rest := history[1..];
      VerifyWindowsIsExact(confirmations, rest);
      forall i | 1 < i < |history| ensures WindowHolds(confirmations, history, i)
          == WindowHolds(confirmations, rest, i - 1) {
      }
      assert ValidateReactionWindow(confirmations, history[0].delay, history[1].delay).Ok?
        <==> WindowHolds(confirmations, history, 1);
      if forall i :: 0 < i < |history| ==> WindowHolds(confirmations, history, i) {
        forall i | 0 < i < |rest| ensures WindowHolds(confirmations, rest, i) {
          assert WindowHolds(confirmations, history, i + 1);
        }
      }
    }
  }

  /** What an honest preparation and an enclave signature under the coin's key always complete to. */
  function CompletedRecovery(
      metadata: CoinMetadata, withdrawal: PubKey, delay: u32, enclave: Signature): SignedRecovery {
    var body := RecoveryTx(metadata.outpoint, metadata.amount, withdrawal, delay);
    var client := Sig(metadata.keys.client, RecoverySighash(body, metadata.amount, metadata.keys), 0);
    SignedRecovery(WithStack(body, RecoveryWitness(enclave, client, metadata.keys)), withdrawal, delay)
  }

  /** Preparing, signing and completing round-trips into a recovery that verifies. */
  lemma PrepareThenComplete(
      metadata: CoinMetadata, prepared: PreparedRecovery, response: SignResponse, clientSecret: Token)
    requires metadata.keys.client != metadata.keys.enclave && Point(clientSecret) == metadata.keys.client
    requires CanonicalRecovery(metadata.outpoint, metadata.amount, prepared.withdrawal, prepared.delay)
             == Ok(prepared.tx)
    requires prepared.metadata == metadata && prepared.request.coinId == metadata.keys.coinId
    requires prepared.request.sighash == RecoverySighash(prepared.tx, metadata.amount, metadata.keys)
    ensures CompleteRecovery(prepared.request, response, prepared, clientSecret).Ok?
            <==> VerifySchnorr(response.signature, prepared.request.sighash, metadata.keys.enclave)
    ensures CompleteRecovery(prepared.request, response, prepared, clientSecret).Ok? ==>
              var r := CompleteRecovery(prepared.request, response, prepared, clientSecret).value;
              && r == CompletedRecovery(metadata, prepared.withdrawal, prepared.delay, response.signature)
              && VerifyRecovery(metadata, r).Ok?
  {
    var stack := RecoveryWitness(response.signature, Sig(Point(clientSecret), prepared.request.sighash, 0),
                                 metadata.keys);
    RecoveryTxStrips(metadata.outpoint, metadata.amount, prepared.withdrawal, prepared.delay, stack);
    if VerifySchnorr(response.signature, prepared.request.sighash, metadata.keys.enclave) {
      var r := CompletedRecovery(metadata, prepared.withdrawal, prepared.delay, response.signature);
      assert r.tx == WithStack(prepared.tx, stack);
      assert VerifySignedRecovery(r.tx, metadata.amount, metadata.keys).Ok?;
    }
  }

  // ---------------------------------------------------------------------------
  // The fee-paying exit child.

  const CHILD_PLACEHOLDER: seq<WitnessItem> := [Filler(64)]

  function ChildTx(parent: Tx, value: u64, destination: Script, stack: seq<WitnessItem>): Tx {
    Tx(TRUC_VERSION, 0, [TxIn(OutPoint(ComputeTxid(parent), 0), [], SEQUENCE_MAX, stack)], [TxOut(value, destination)])
  }

  /** `build_exit_child`: the fee comes from a placeholder witness, the value and the witness are then overwritten. */
  method BuildExitChildInPlace(
      recovery: SignedRecovery, amount: u64, withdrawalSecret: Token, destination: Script, feeRate: u64)
    returns (r: Result<Tx, ClientError>)
    ensures r == BuildExitChild(recovery, amount, withdrawalSecret, destination, feeRate)
  {
    var parent := recovery.tx;
    if |parent.inputs| != 1 || |parent.outputs| != 1 { return Err(TransactionMismatch); }
    var internal := Point(withdrawalSecret);
    if internal != recovery.withdrawal { return Err(WithdrawalKeyMismatch); }
    var spent := parent.outputs[0];
    if spent.value != amount || spent.script != P2tr(internal) { return Err(TransactionMismatch); }
    var child := ChildTx(parent, amount, destination, []);
    child := child.(inputs := child.inputs[0 := child.inputs[0].(stack := CHILD_PLACEHOLDER)]);
    assert child == ChildTx(parent, amount, destination, CHILD_PLACEHOLDER);
    var fee := Fee(feeRate, Vsize(parent) + Vsize(child));
    if fee > amount { return Err(DustOutput); }
    var value: u64 := amount - fee;
    if value < MinimalNonDust(child.outputs[0].script) { return Err(DustOutput); }
    child := child.(outputs := child.outputs[0 := child.outputs[0].(value := value)]);
    assert child == ChildTx(parent, value, destination, CHILD_PLACEHOLDER);
    var signature := ChildSignature(child, withdrawalSecret, spent);
    child := child.(inputs := child.inputs[0 := child.inputs[0].(stack := [SigItem(signature)])]);
    assert child == ChildTx(parent, value, destination, [SigItem(signature)]);
    r := Ok(child);
  }

  function ChildSignature(child: Tx, withdrawalSecret: Token, spent: TxOut): Signature {
    Sig(Tweaked(Point(withdrawalSecret)), KeySpend(Strip(child), 0, [spent]), 0)
  }

  function BuildExitChild(
      recovery: SignedRecovery, amount: u64, withdrawalSecret: Token, destination: Script, feeRate: u64)
    : Result<Tx, ClientError>
  {
    var parent := recovery.tx;
    if |parent.inputs| != 1 || |parent.outputs| != 1 then Err(TransactionMismatch)
    else if Point(withdrawalSecret) != recovery.withdrawal then Err(WithdrawalKeyMismatch)
    else if parent.outputs[0] != TxOut(amount, P2tr(recovery.withdrawal)) then Err(TransactionMismatch)
    else
      var fee := Fee(feeRate, Vsize(parent) + Vsize(ChildTx(parent, amount, destination, CHILD_PLACEHOLDER)));
      if fee > amount || amount - fee < MinimalNonDust(destination) then Err(DustOutput)
      else
        var unsigned := ChildTx(parent, amount - fee, destination, CHILD_PLACEHOLDER);
        Ok(ChildTx(parent, amount - fee, destination,
                   [SigItem(ChildSignature(unsigned, withdrawalSecret, parent.outputs[0]))]))
  }

  /**
   The exit child spends the whole recovery output to the destination, pays
   exactly the package fee measured on the final signed bytes, leaves no dust,
   and carries a valid key-path signature over those final bytes.
   */
  lemma ExitChildIsExact(
      recovery: SignedRecovery, amount: u64, withdrawalSecret: Token, destination: Script, feeRate: u64)
    requires BuildExitChild(recovery, amount, withdrawalSecret, destination, feeRate).Ok?
    ensures var child := BuildExitChild(recovery, amount, withdrawalSecret, destination, feeRate).value;
            && child.version == TRUC_VERSION
            && |child.inputs| == 1 && child.inputs[0].prevout == OutPoint(ComputeTxid(recovery.tx), 0)
            && |child.outputs| == 1 && child.outputs[0].script == destination
            && child.outputs[0].value + Fee(feeRate, Vsize(recovery.tx) + Vsize(child)) == amount
            && child.outputs[0].value >= MinimalNonDust(destination)
            && |child.inputs[0].stack| == 1 && child.inputs[0].stack[0].SigItem?
            && VerifySchnorr(child.inputs[0].stack[0].signature,
                             KeySpend(Strip(child), 0, [recovery.tx.outputs[0]]),
                             Tweaked(recovery.withdrawal))
  {
    var child := BuildExitChild(recovery, amount, withdrawalSecret, destination, feeRate).value;
    var sized := ChildTx(recovery.tx, amount, destination, CHILD_PLACEHOLDER);
    SameShapeSameWeight(sized, child);
    var unsigned := ChildTx(recovery.tx, child.outputs[0].value, destination, CHILD_PLACEHOLDER);
    assert Strip(unsigned).inputs == Strip(child).inputs;
  }
}
