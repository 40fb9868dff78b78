/** Source funding and sweep builders of wallet-core/src/funding.rs. */
module Funding {
  import opened Wrappers
  import opened Bitcoin
  import opened Client
  import opened Transfer
  import opened Validation

  datatype SourceUtxo = SourceUtxo(outpoint: OutPoint, output: TxOut, confirmations: u32, coinbase: bool)

  datatype PreparedSourceFunding = PreparedSourceFunding(tx: Tx, outpoint: OutPoint, fee: u64)

  datatype PreparedSourceSweep = PreparedSourceSweep(tx: Tx, fee: u64)

  const PLACEHOLDER: seq<WitnessItem> := [Filler(64)]

  function SourceScript(secret: Token): Script {
    P2tr(Point(secret))
  }

  /** A key-path signature of the deposit key over input `index` of `tx`. */
  function SourceSignature(tx: Tx, secret: Token, index: nat, prevouts: seq<TxOut>): Signature {
    Sig(Tweaked(Point(secret)), KeySpend(Strip(tx), index, prevouts), 0)
  }

  // ---------------------------------------------------------------------------
  // Funding transaction.

  function FundingTx(
      source: SourceUtxo, amount: u64, change: u64, keys: CoinKeys, secret: Token, stack: seq<WitnessItem>): Tx {
    Tx(2, 0, [TxIn(source.outpoint, [], SEQUENCE_MAX, stack)],
       [TxOut(amount, FundingScript(keys)), TxOut(change, SourceScript(secret))])
  }

  predicate SpendableSource(source: SourceUtxo, secret: Token) {
    && source.confirmations > 0 && !source.coinbase && !source.outpoint.IsNull()
    && source.output.script == SourceScript(secret)
  }

  function BuildSourceFunding(keys: CoinKeys, secret: Token, source: SourceUtxo, amount: u64, feeRate: u64, maxFee: u64)
    : Result<PreparedSourceFunding, WalletError>
  {
    if !(SpendableSource(source, secret) && feeRate > 0) then Err(Refused) else
    if !(MinimalNonDust(FundingScript(keys)) <= amount <= MAX_MONEY) then Err(Refused) else
    var fee := Fee(feeRate, Vsize(FundingTx(source, amount, 0, keys, secret, PLACEHOLDER)));
    if fee > U64_MAX || fee > maxFee then Err(Refused)
    else if amount + fee > source.output.value then Err(Refused)
    else if source.output.value - amount - fee < MinimalNonDust(SourceScript(secret)) then Err(Refused)
    else
      var change: u64 := source.output.value - amount - fee;
      var unsigned := FundingTx(source, amount, change, keys, secret, PLACEHOLDER);
      var signature := SourceSignature(unsigned, secret, 0, [source.output]);
      var tx := FundingTx(source, amount, change, keys, secret, [SigItem(signature)]);
      var _ :- ValidateFundingInputs(tx);
      Ok(PreparedSourceFunding(tx, OutPoint(ComputeTxid(tx), 0), fee))
  }

  /** `build_source_funding` as written: placeholder, fee, change, signature, each overwritten in place. */
  method BuildSourceFundingInPlace(
      keys: CoinKeys, secret: Token, source: SourceUtxo, amount: u64, feeRate: u64, maxFee: u64)
    returns (r: Result<PreparedSourceFunding, WalletError>)
    ensures r == BuildSourceFunding(keys, secret, source, amount, feeRate, maxFee)
  {
    hide Vsize, MinimalNonDust, ValidateFundingInputs, ComputeTxid, SourceSignature;
    if source.confirmations == 0 || source.coinbase || source.outpoint.IsNull() { return Err(Refused); }
    if feeRate == 0 || amount > MAX_MONEY { return Err(Refused); }
    if source.output.script != SourceScript(secret) { return Err(Refused); }
    if amount < MinimalNonDust(FundingScript(keys)) { return Err(Refused); }
    var tx := FundingTx(source, amount, 0, keys, secret, []);
    tx := tx.(inputs := [tx.inputs[0].(stack := PLACEHOLDER)]);
    var fee := Fee(feeRate, Vsize(tx));
    if fee > U64_MAX || fee > maxFee { return Err(Refused); }
    if amount > source.output.value || fee > source.output.value - amount { return Err(Refused); }
    var change: u64 := source.output.value - amount - fee;
    if change < MinimalNonDust(tx.outputs[1].script) { return Err(Refused); }
    tx := tx.(outputs := tx.outputs[1 := tx.outputs[1].(value := change)]);
    assert tx == FundingTx(source, amount, change, keys, secret, PLACEHOLDER);
    var signature := SourceSignature(tx, secret, 0, [source.output]);
    tx := tx.(inputs := [tx.inputs[0].(stack := [SigItem(signature)])]);
    assert tx == FundingTx(source, amount, change, keys, secret, [SigItem(signature)]);
    var valid := ValidateFundingInputs(tx);
    if valid.Err? { return Err(valid.error); }
    r := Ok(PreparedSourceFunding(tx, OutPoint(ComputeTxid(tx), 0), fee));
  }

  /** The funding builder's fee, conservation, dust and finalization promises, on the final signed bytes. */
  lemma SourceFundingIsExact(
      keys: CoinKeys, network: NetworkId, secret: Token, source: SourceUtxo, amount: u64, feeRate: u64, maxFee: u64)
    requires keys.client != keys.enclave
    requires BuildSourceFunding(keys, secret, source, amount, feeRate, maxFee).Ok?
    ensures var built := BuildSourceFunding(keys, secret, source, amount, feeRate, maxFee).value;
            && built.fee == Fee(feeRate, Vsize(built.tx)) <= maxFee
            && |built.tx.inputs| == 1 && built.tx.inputs[0].prevout == source.outpoint
            && |built.tx.outputs| == 2 && built.tx.outputs[0] == TxOut(amount, FundingScript(keys))
            && source.output.value == amount + built.tx.outputs[1].value + built.fee
            && built.tx.outputs[1].script == SourceScript(secret)
            && built.tx.outputs[1].value >= MinimalNonDust(SourceScript(secret))
            && amount >= MinimalNonDust(FundingScript(keys))
            && built.outpoint == OutPoint(ComputeTxid(built.tx), 0)
            && ValidateFinalizedFunding(CoinMetadata(keys, network, built.outpoint, amount), built.tx).Ok?
            && built.tx.inputs[0].stack[0].SigItem?
            && VerifySchnorr(built.tx.inputs[0].stack[0].signature, KeySpend(Strip(built.tx), 0, [source.output]),
                             Tweaked(Point(secret)))
  {
    var built := BuildSourceFunding(keys, secret, source, amount, feeRate, maxFee).value;
    var sized := FundingTx(source, amount, 0, keys, secret, PLACEHOLDER);
    var change := built.tx.outputs[1].value;
    var unsigned := FundingTx(source, amount, change, keys, secret, PLACEHOLDER);
    TwoOutputs(sized.outputs);
    TwoOutputs(built.tx.outputs);
    SameShapeSameWeight(sized, built.tx);
    assert Strip(unsigned).inputs == Strip(built.tx).inputs;
    assert CountScript(built.tx.outputs, FundingScript(keys)) == 1 by {
      assert built.tx.outputs[1..] == [built.tx.outputs[1]];
      assert CountScript(built.tx.outputs[1..], FundingScript(keys)) == 0;
    }
  }

  lemma {:induction false} TwoOutputs(outputs: seq<TxOut>)
    requires |outputs| == 2 && ScriptLength(outputs[0].script) == ScriptLength(outputs[1].script) == 34
    ensures OutputsSize(outputs) == 86
  {
    assert outputs[1..] == [outputs[1]];
    assert OutputsSize([outputs[1]]) == 43;
  }

  /** The final input and weight validation of a funding transaction never rejects. */
  lemma FundingInputsAlwaysValid(
      source: SourceUtxo, amount: u64, change: u64, keys: CoinKeys, secret: Token, signature: Signature)
    requires !source.outpoint.IsNull()
    ensures ValidateFundingInputs(FundingTx(source, amount, change, keys, secret, [SigItem(signature)])).Ok?
  {
    var tx := FundingTx(source, amount, change, keys, secret, [SigItem(signature)]);
    TwoOutputs(tx.outputs);
    assert InputsBaseSize(tx.inputs) == 41;
    assert WitnessItemsSize(tx.inputs[0].stack) == 65;
    assert WitnessSize(tx.inputs) == 66;
  }

  // ---------------------------------------------------------------------------
  // Source order. `rank` reads a txid's bytes as a number; distinct txids have distinct bytes.

  ghost predicate Injective(rank: Txid -> nat) {
    forall a, b :: rank(a) == rank(b) ==> a == b
  }

  predicate Before(rank: Txid -> nat, a: OutPoint, b: OutPoint) {
    rank(a.txid) < rank(b.txid) || (rank(a.txid) == rank(b.txid) && a.vout < b.vout)
  }

  ghost predicate Sorted(rank: Txid -> nat, s: seq<SourceUtxo>) {
    forall i, j :: 0 <= i < j < |s| ==> !Before(rank, s[j].outpoint, s[i].outpoint)
  }

  function Insert(rank: Txid -> nat, x: SourceUtxo, s: seq<SourceUtxo>): (r: seq<SourceUtxo>)
    ensures multiset(r) == multiset([x] + s)
    ensures |r| == |s| + 1
  {
    if s == [] then [x]
    else if !Before(rank, s[0].outpoint, x.outpoint) then [x] + s
    else
      var rest := Insert(rank, x, s[1..]);
      assert [x] + s == [x] + ([s[0]] + s[1..]);
      [s[0]] + rest
  }

  /** `sort_by_key(|source| source.outpoint)`. */
  function SortSources(rank: Txid -> nat, s: seq<SourceUtxo>): (r: seq<SourceUtxo>)
    ensures multiset(r) == multiset(s)
    ensures |r| == |s|
  {
    if s == [] then []
    else
      assert s == [s[0]] + s[1..];
      Insert(rank, s[0], SortSources(rank, s[1..]))
  }

  lemma InMultiset<T>(a: seq<T>, b: seq<T>, x: T)
    requires multiset(a) == multiset(b)
    ensures x in a <==> x in b
  {
    assert x in a <==> x in multiset(a);
    assert x in b <==> x in multiset(b);
  }

  /** "Not before" is a total preorder. */
  lemma NotBeforeTransitive(rank: Txid -> nat, a: OutPoint, b: OutPoint, c: OutPoint)
    requires !Before(rank, b, a) && !Before(rank, c, b)
    ensures !Before(rank, c, a)
  {
  }

  lemma {:induction false} InsertSorts(rank: Txid -> nat, x: SourceUtxo, s: seq<SourceUtxo>)
    requires Sorted(rank, s)
    ensures Sorted(rank, Insert(rank, x, s))
  {
    var r := Insert(rank, x, s);
    if s == [] {
    } else if !Before(rank, s[0].outpoint, x.outpoint) {
      forall i, j | 0 <= i < j < |r| ensures !Before(rank, r[j].outpoint, r[i].outpoint) {
        if i == 0 && j > 1 {
          assert !Before(rank, s[j - 1].outpoint, s[0].outpoint);
          NotBeforeTransitive(rank, x.outpoint, s[0].outpoint, s[j - 1].outpoint);
        }
      }
    } else {
      var rest := Insert(rank, x, s[1..]);
      InsertSorts(rank, x, s[1..]);
      forall i, j | 0 <= i < j < |r| ensures !Before(rank, r[j].outpoint, r[i].outpoint) {
        if i == 0 {
          InMultiset(rest, [x] + s[1..], rest[j - 1]);
          assert r[j] == rest[j - 1];
          if r[j] != x {
            var k :| 0 <= k < |s[1..]| && s[1..][k] == r[j];
            assert s[k + 1] == r[j];
          }
        } else {
          assert r[i] == rest[i - 1] && r[j] == rest[j - 1];
        }
      }
    }
  }

  lemma {:induction false} SortSorts(rank: Txid -> nat, s: seq<SourceUtxo>)
    ensures Sorted(rank, SortSources(rank, s))
  {
    if s == [] {
    } else {
      SortSorts(rank, s[1..]);
      InsertSorts(rank, s[0], SortSources(rank, s[1..]));
    }
  }

  /** What the adjacent comparison of the sorted sources checks. */
  predicate AdjacentDistinct(s: seq<SourceUtxo>) {
    forall i :: 0 < i < |s| ==> s[i - 1].outpoint != s[i].outpoint
  }

  ghost predicate StrictlySorted(rank: Txid -> nat, s: seq<SourceUtxo>) {
    forall i, j :: 0 <= i < j < |s| ==> Before(rank, s[i].outpoint, s[j].outpoint)
  }

  /** On a sorted sequence comparing neighbours is enough: all inputs are pairwise distinct. */
  lemma {:induction false} AdjacentIsPairwise(rank: Txid -> nat, s: seq<SourceUtxo>)
    requires Injective(rank) && Sorted(rank, s)
    ensures AdjacentDistinct(s) <==> StrictlySorted(rank, s)
    ensures AdjacentDistinct(s) <==> forall i, j :: 0 <= i < j < |s| ==> s[i].outpoint != s[j].outpoint
  {
    if AdjacentDistinct(s) {
      forall i, j | 0 <= i < j < |s| ensures Before(rank, s[i].outpoint, s[j].outpoint) {
        NeighbourBefore(rank, s, i, j);
      }
    }
  }

  lemma NeighbourBefore(rank: Txid -> nat, s: seq<SourceUtxo>, i: nat, j: nat)
    requires Injective(rank) && Sorted(rank, s) && AdjacentDistinct(s) && i < j < |s|
    ensures Before(rank, s[i].outpoint, s[j].outpoint)
  {
    assert s[j - 1].outpoint != s[j].outpoint;
    assert !Before(rank, s[j].outpoint, s[j - 1].outpoint);
    assert Before(rank, s[j - 1].outpoint, s[j].outpoint);
    if i < j - 1 {
      assert !Before(rank, s[j - 1].outpoint, s[i].outpoint);
    }
  }

  lemma SameFirst(rank: Txid -> nat, a: seq<SourceUtxo>, b: seq<SourceUtxo>)
    requires multiset(a) == multiset(b) && StrictlySorted(rank, a) && StrictlySorted(rank, b) && a != [] && b != []
    ensures a[0] == b[0]
  {
    InMultiset(a, b, a[0]);
    InMultiset(a, b, b[0]);
    var k :| 0 <= k < |b| && b[k] == a[0];
    var l :| 0 <= l < |a| && a[l] == b[0];
    assert k > 0 ==> Before(rank, b[0].outpoint, a[0].outpoint);
    assert l > 0 ==> Before(rank, a[0].outpoint, b[0].outpoint);
  }

  lemma SameRest<T>(a: seq<T>, b: seq<T>)
    requires a != [] && b != [] && a[0] == b[0] && multiset(a) == multiset(b)
    ensures multiset(a[1..]) == multiset(b[1..])
  {
    assert a == [a[0]] + a[1..] && b == [b[0]] + b[1..];
    assert multiset(a[1..]) == multiset(a) - multiset{a[0]};
    assert multiset(b[1..]) == multiset(b) - multiset{b[0]};
  }

  lemma StrictTail(rank: Txid -> nat, a: seq<SourceUtxo>)
    requires StrictlySorted(rank, a) && a != []
    ensures StrictlySorted(rank, a[1..])
  {
  }

  /** Strictly sorted sequences of the same elements are the same sequence. */
  lemma {:induction false} SortedIsUnique(rank: Txid -> nat, a: seq<SourceUtxo>, b: seq<SourceUtxo>)
    requires multiset(a) == multiset(b) && StrictlySorted(rank, a) && StrictlySorted(rank, b)
    ensures a == b
  {
    assert |a| == |multiset(a)| == |multiset(b)| == |b|;
    if a == [] {
    } else {
      SameFirst(rank, a, b);
      SameRest(a, b);
      StrictTail(rank, a);
      StrictTail(rank, b);
      SortedIsUnique(rank, a[1..], b[1..]);
      assert a == [a[0]] + a[1..] && b == [b[0]] + b[1..];
    }
  }

  // ---------------------------------------------------------------------------
  // Sweep.

  function TotalValue(s: seq<SourceUtxo>): nat {
    if s == [] then 0 else s[0].output.value + TotalValue(s[1..])
  }

  function SweepInputs(s: seq<SourceUtxo>, stacks: seq<seq<WitnessItem>>): seq<TxIn>
    requires |stacks| == |s|
  {
    seq(|s|, i requires 0 <= i < |s| => TxIn(s[i].outpoint, [], SEQUENCE_MAX, stacks[i]))
  }

  function Placeholders(n: nat): seq<seq<WitnessItem>> {
    seq(n, _ => PLACEHOLDER)
  }

  function Prevouts(s: seq<SourceUtxo>): seq<TxOut> {
    seq(|s|, i requires 0 <= i < |s| => s[i].output)
  }

  function SweepTx(s: seq<SourceUtxo>, value: u64, destination: Script, stacks: seq<seq<WitnessItem>>): Tx
    requires |stacks| == |s|
  {
    Tx(2, 0, SweepInputs(s, stacks), [TxOut(value, destination)])
  }

  function SweepStacks(s: seq<SourceUtxo>, value: u64, destination: Script, secret: Token): seq<seq<WitnessItem>> {
    var unsigned := SweepTx(s, value, destination, Placeholders(|s|));
    seq(|s|, i requires 0 <= i < |s| => [SigItem(SourceSignature(unsigned, secret, i, Prevouts(s)))])
  }

  predicate AllSpendable(secret: Token, s: seq<SourceUtxo>) {
    forall x :: x in s ==> SpendableSource(x, secret)
  }

  /** `build_source_sweep`; `destination` is the parsed address's script. */
  function BuildSourceSweep(
      rank: Txid -> nat, secret: Token, sources: seq<SourceUtxo>, destination: Script, feeRate: u64, maxFee: u64)
    : Result<PreparedSourceSweep, WalletError>
  {
    if !(sources != [] && |sources| <= 100 && feeRate > 0) then Err(Refused) else
    if !(AddressScript(destination) && destination != SourceScript(secret)) then Err(Refused) else
    BuildFromSorted(secret, SortSources(rank, sources), destination, feeRate, maxFee)
  }

  /** The part of the builder that runs on the sorted sources. */
  function BuildFromSorted(secret: Token, s: seq<SourceUtxo>, destination: Script, feeRate: u64, maxFee: u64)
    : Result<PreparedSourceSweep, WalletError>
  {
    if !AllSpendable(secret, s) then Err(Refused) else
    if !AdjacentDistinct(s) then Err(Refused) else
    if TotalValue(s) > U64_MAX then Err(Refused)
    else PaySweep(secret, s, TotalValue(s), destination, feeRate, maxFee)
  }

  /** The fee on placeholders, then the output, the signatures and the final validation. */
  function PaySweep(secret: Token, s: seq<SourceUtxo>, total: u64, destination: Script, feeRate: u64, maxFee: u64)
    : Result<PreparedSourceSweep, WalletError>
  {
    var fee := Fee(feeRate, Vsize(SweepTx(s, 0, destination, Placeholders(|s|))));
    if fee > U64_MAX || fee > maxFee || fee > total then Err(Refused)
    else if total - fee < MinimalNonDust(destination) then Err(Refused)
    else
      var tx := SweepTx(s, total - fee, destination, SweepStacks(s, total - fee, destination, secret));
      var _ :- ValidateFundingInputs(tx);
      Ok(PreparedSourceSweep(tx, fee))
  }

  /** The result depends only on which sources are given, never on their order. */
  lemma SweepIsCanonical(
      rank: Txid -> nat, secret: Token, a: seq<SourceUtxo>, b: seq<SourceUtxo>, destination: Script, feeRate: u64,
      maxFee: u64)
    requires Injective(rank) && multiset(a) == multiset(b)
    ensures BuildSourceSweep(rank, secret, a, destination, feeRate, maxFee)
         == BuildSourceSweep(rank, secret, b, destination, feeRate, maxFee)
  {
    SortSorts(rank, a);
    SortSorts(rank, b);
    assert |a| == |multiset(a)| == |multiset(b)| == |b|;
    SortedBuildsAlike(rank, secret, SortSources(rank, a), SortSources(rank, b), destination, feeRate, maxFee);
  }

  lemma SortedBuildsAlike(
      rank: Txid -> nat, secret: Token, a: seq<SourceUtxo>, b: seq<SourceUtxo>, destination: Script, feeRate: u64,
      maxFee: u64)
    requires Injective(rank) && multiset(a) == multiset(b) && Sorted(rank, a) && Sorted(rank, b)
    ensures BuildFromSorted(secret, a, destination, feeRate, maxFee)
            == BuildFromSorted(secret, b, destination, feeRate, maxFee)
  {
    if AdjacentDistinct(a) && AdjacentDistinct(b) {
      AdjacentIsPairwise(rank, a);
      AdjacentIsPairwise(rank, b);
      SortedIsUnique(rank, a, b);
    } else {
      SameSpendable(secret, a, b);
      SameDistinct(rank, a, b);
      RefusedUnlessDistinct(secret, a, destination, feeRate, maxFee);
      RefusedUnlessDistinct(secret, b, destination, feeRate, maxFee);
    }
  }

  lemma RefusedUnlessDistinct(secret: Token, s: seq<SourceUtxo>, destination: Script, feeRate: u64, maxFee: u64)
    requires !AdjacentDistinct(s)
    ensures BuildFromSorted(secret, s, destination, feeRate, maxFee) == Err(Refused)
  {
  }

  lemma SameDistinct(rank: Txid -> nat, a: seq<SourceUtxo>, b: seq<SourceUtxo>)
    requires Injective(rank) && multiset(a) == multiset(b) && Sorted(rank, a) && Sorted(rank, b)
    ensures AdjacentDistinct(a) <==> AdjacentDistinct(b)
  {
    if AdjacentDistinct(a) {
      DistinctByMultiset(rank, a, b);
    }
    if AdjacentDistinct(b) {
      DistinctByMultiset(rank, b, a);
    }
  }

  lemma SameSpendable(secret: Token, a: seq<SourceUtxo>, b: seq<SourceUtxo>)
    requires multiset(a) == multiset(b)
    ensures AllSpendable(secret, a) <==> AllSpendable(secret, b)
  {
    forall x ensures x in a <==> x in b {
      InMultiset(a, b, x);
    }
  }

  lemma {:induction false} DistinctByMultiset(rank: Txid -> nat, a: seq<SourceUtxo>, b: seq<SourceUtxo>)
    requires Injective(rank) && multiset(a) == multiset(b)
    requires Sorted(rank, a) && Sorted(rank, b) && AdjacentDistinct(a)
    ensures AdjacentDistinct(b)
  {
    AdjacentIsPairwise(rank, a);
    forall i | 0 < i < |b| ensures b[i - 1].outpoint != b[i].outpoint {
      if b[i - 1].outpoint == b[i].outpoint {
        InMultiset(a, b, b[i - 1]);
        InMultiset(a, b, b[i]);
        var k :| 0 <= k < |a| && a[k] == b[i - 1];
        var l :| 0 <= l < |a| && a[l] == b[i];
        if k == l {
          TwiceInSequence(b, i - 1, i);
          assert multiset(a)[a[k]] >= 2;
          OnceIfDistinct(a, k);
        }
      }
    }
  }

  lemma TwiceInSequence<T>(s: seq<T>, i: nat, j: nat)
    requires i < j < |s| && s[i] == s[j]
    ensures multiset(s)[s[i]] >= 2
  {
    assert s == s[..j] + s[j..];
    assert s[i] in s[..j] && s[j] in s[j..] by {
      assert s[..j][i] == s[i];
      assert s[j..][0] == s[j];
    }
    assert multiset(s) == multiset(s[..j]) + multiset(s[j..]);
    assert s[i] in multiset(s[..j]) && s[i] in multiset(s[j..]);
  }

  lemma OnceIfDistinct(s: seq<SourceUtxo>, k: nat)
    requires k < |s| && forall i, j :: 0 <= i < j < |s| ==> s[i].outpoint != s[j].outpoint
    ensures multiset(s)[s[k]] == 1
  {
    assert s == s[..k] + ([s[k]] + s[k + 1..]);
    assert multiset(s) == multiset(s[..k]) + (multiset{s[k]} + multiset(s[k + 1..]));
    assert s[k] !in s[..k];
    assert s[k] !in s[k + 1..];
    assert multiset(s[..k])[s[k]] == 0 && multiset(s[k + 1..])[s[k]] == 0;
  }

  lemma {:induction false} SweepInputSizes(inputs: seq<TxIn>)
    requires forall i :: 0 <= i < |inputs| ==>
               inputs[i].scriptSig == [] && |inputs[i].stack| == 1 && inputs[i].stack[0].Length() == 64
    ensures InputsBaseSize(inputs) == 41 * |inputs| && WitnessSize(inputs) == 66 * |inputs|
  {
    if inputs == [] {
    } else {
      assert WitnessItemsSize(inputs[0].stack) == 65;
      assert forall i :: 0 <= i < |inputs| - 1 ==> inputs[1..][i] == inputs[i + 1];
      SweepInputSizes(inputs[1..]);
    }
  }

  /** The final input and weight validation of a sweep never rejects: 100 inputs stay far below the limit. */
  lemma SweepInputsAlwaysValid(s: seq<SourceUtxo>, value: u64, destination: Script, secret: Token)
    requires 0 < |s| <= 100 && AddressScript(destination)
    requires AllSpendable(secret, s)
    ensures ValidateFundingInputs(SweepTx(s, value, destination, SweepStacks(s, value, destination, secret))).Ok?
  {
    var tx := SweepTx(s, value, destination, SweepStacks(s, value, destination, secret));
    SweepInputSizes(tx.inputs);
    assert forall i :: 0 <= i < |s| ==> s[i] in s;
    assert OutputsSize(tx.outputs) <= 51;
  }

  function Outpoints(s: seq<SourceUtxo>): set<OutPoint> {
    set x | x in s :: x.outpoint
  }

  function SpentBy(tx: Tx): set<OutPoint> {
    set x | x in tx.inputs :: x.prevout
  }

  predicate SignedInput(tx: Tx, i: nat, secret: Token, prevouts: seq<TxOut>)
    requires i < |tx.inputs|
  {
    && |tx.inputs[i].stack| == 1 && tx.inputs[i].stack[0].SigItem?
    && VerifySchnorr(tx.inputs[i].stack[0].signature, KeySpend(Strip(tx), i, prevouts), Tweaked(Point(secret)))
  }

  lemma SpendsItsSources(s: seq<SourceUtxo>, value: u64, destination: Script, stacks: seq<seq<WitnessItem>>)
    requires |stacks| == |s|
    ensures SpentBy(SweepTx(s, value, destination, stacks)) == Outpoints(s)
  {
    var inputs := SweepInputs(s, stacks);
    forall o | o in Outpoints(s) ensures o in SpentBy(SweepTx(s, value, destination, stacks)) {
      var x :| x in s && x.outpoint == o;
      var i :| 0 <= i < |s| && s[i] == x;
      assert inputs[i] in inputs && inputs[i].prevout == o;
    }
    forall o | o in SpentBy(SweepTx(s, value, destination, stacks)) ensures o in Outpoints(s) {
      var x :| x in inputs && x.prevout == o;
      var i :| 0 <= i < |inputs| && inputs[i] == x;
      assert s[i] in s && s[i].outpoint == o;
    }
  }

  lemma {:induction false} SortKeepsOutpoints(rank: Txid -> nat, s: seq<SourceUtxo>)
    ensures Outpoints(SortSources(rank, s)) == Outpoints(s)
  {
    forall x ensures x in s <==> x in SortSources(rank, s) {
      InMultiset(s, SortSources(rank, s), x);
    }
  }

  lemma {:induction false} TotalOfInsert(rank: Txid -> nat, x: SourceUtxo, s: seq<SourceUtxo>)
    ensures TotalValue(Insert(rank, x, s)) == x.output.value + TotalValue(s)
  {
    if s != [] && Before(rank, s[0].outpoint, x.outpoint) {
      TotalOfInsert(rank, x, s[1..]);
      assert Insert(rank, x, s)[1..] == Insert(rank, x, s[1..]);
    } else {
      assert ([x] + s)[1..] == s;
    }
  }

  lemma {:induction false} SortKeepsTotal(rank: Txid -> nat, s: seq<SourceUtxo>)
    ensures TotalValue(SortSources(rank, s)) == TotalValue(s)
  {
    if s == [] {
    } else {
      SortKeepsTotal(rank, s[1..]);
      TotalOfInsert(rank, s[0], SortSources(rank, s[1..]));
    }
  }

  /** The fee measured on placeholders is the fee of the signed bytes. */
  lemma SweepFeeIsExact(s: seq<SourceUtxo>, value: u64, destination: Script, secret: Token)
    ensures Vsize(SweepTx(s, 0, destination, Placeholders(|s|)))
         == Vsize(SweepTx(s, value, destination, SweepStacks(s, value, destination, secret)))
  {
    var sized := SweepTx(s, 0, destination, Placeholders(|s|));
    var signed := SweepTx(s, value, destination, SweepStacks(s, value, destination, secret));
    forall i | 0 <= i < |sized.inputs| ensures SameShape(sized.inputs[i], signed.inputs[i]) {
    }
    SameShapeSameWeight(sized, signed);
  }

  lemma SweepSignaturesVerify(s: seq<SourceUtxo>, value: u64, destination: Script, secret: Token, i: nat)
    requires i < |s|
    ensures SignedInput(SweepTx(s, value, destination, SweepStacks(s, value, destination, secret)), i, secret,
                        Prevouts(s))
  {
    var unsigned := SweepTx(s, value, destination, Placeholders(|s|));
    var signed := SweepTx(s, value, destination, SweepStacks(s, value, destination, secret));
    assert Strip(unsigned).inputs == Strip(signed).inputs;
  }

  /** The transaction a successful build signs, over its sorted sources. */
  function SignedSweep(s: seq<SourceUtxo>, value: u64, destination: Script, secret: Token): Tx {
    SweepTx(s, value, destination, SweepStacks(s, value, destination, secret))
  }

  lemma {:induction false} BuiltFromSorted(
      secret: Token, s: seq<SourceUtxo>, destination: Script, feeRate: u64, maxFee: u64)
    requires BuildFromSorted(secret, s, destination, feeRate, maxFee).Ok?
    ensures AdjacentDistinct(s)
    ensures var built := BuildFromSorted(secret, s, destination, feeRate, maxFee).value;
            && built.fee == Fee(feeRate, Vsize(SweepTx(s, 0, destination, Placeholders(|s|)))) <= maxFee
            && built.fee <= TotalValue(s) <= U64_MAX
            && TotalValue(s) - built.fee >= MinimalNonDust(destination)
            && built.tx == SignedSweep(s, TotalValue(s) - built.fee, destination, secret)
  {
    hide Weight;
  }

  /** The fee is exact on the final signed bytes; nothing else is lost and no dust is left. */
  predicate PaysExactly(built: PreparedSourceSweep, total: nat, destination: Script, feeRate: u64, maxFee: u64) {
    && built.fee == Fee(feeRate, Vsize(built.tx)) <= maxFee
    && |built.tx.outputs| == 1 && built.tx.outputs[0].script == destination
    && built.tx.outputs[0].value + built.fee == total <= U64_MAX
    && built.tx.outputs[0].value >= MinimalNonDust(destination)
  }

  lemma {:induction false} BuiltPaysExactly(
      secret: Token, s: seq<SourceUtxo>, destination: Script, feeRate: u64, maxFee: u64)
    requires BuildFromSorted(secret, s, destination, feeRate, maxFee).Ok?
    ensures PaysExactly(BuildFromSorted(secret, s, destination, feeRate, maxFee).value, TotalValue(s), destination,
                        feeRate, maxFee)
  {
    hide BuildFromSorted;
    BuiltFromSorted(secret, s, destination, feeRate, maxFee);
    SweepFeeIsExact(s, TotalValue(s) - BuildFromSorted(secret, s, destination, feeRate, maxFee).value.fee,
                    destination, secret);
  }

  lemma {:induction false} BuiltOnSorted(
      rank: Txid -> nat, secret: Token, sources: seq<SourceUtxo>, destination: Script, feeRate: u64, maxFee: u64)
    requires BuildSourceSweep(rank, secret, sources, destination, feeRate, maxFee).Ok?
    ensures BuildSourceSweep(rank, secret, sources, destination, feeRate, maxFee)
         == BuildFromSorted(secret, SortSources(rank, sources), destination, feeRate, maxFee)
  {
  }

  /** A sweep conserves value, whatever the order of its sources. */
  lemma {:induction false} SweepConserves(
      rank: Txid -> nat, secret: Token, sources: seq<SourceUtxo>, destination: Script, feeRate: u64, maxFee: u64)
    requires BuildSourceSweep(rank, secret, sources, destination, feeRate, maxFee).Ok?
    ensures PaysExactly(BuildSourceSweep(rank, secret, sources, destination, feeRate, maxFee).value,
                        TotalValue(sources),
                        destination, feeRate, maxFee)
  {
    BuiltOnSorted(rank, secret, sources, destination, feeRate, maxFee);
    SortKeepsTotal(rank, sources);
    BuiltPaysExactly(secret, SortSources(rank, sources), destination, feeRate, maxFee);
  }

  /** Every outpoint once, each with a valid signature, and nothing else. */
  ghost predicate SpendsOnce(tx: Tx, s: seq<SourceUtxo>, secret: Token) {
    && |tx.inputs| == |s| && SpentBy(tx) == Outpoints(s)
    && (forall i, j :: 0 <= i < j < |tx.inputs| ==> tx.inputs[i].prevout != tx.inputs[j].prevout)
    && forall i :: 0 <= i < |tx.inputs| ==> SignedInput(tx, i, secret, Prevouts(s))
  }

  /** The sweep spends each given source exactly once, with a valid signature, and nothing else. */
  lemma {:induction false} SweepSpendsSourcesOnce(
      rank: Txid -> nat, secret: Token, sources: seq<SourceUtxo>, destination: Script, feeRate: u64, maxFee: u64)
    requires Injective(rank)
    requires BuildSourceSweep(rank, secret, sources, destination, feeRate, maxFee).Ok?
    ensures SpendsOnce(BuildSourceSweep(rank, secret, sources, destination, feeRate, maxFee).value.tx,
                       SortSources(rank, sources), secret)
    ensures Outpoints(SortSources(rank, sources)) == Outpoints(sources) && |SortSources(rank, sources)| == |sources|
  {
    BuiltOnSorted(rank, secret, sources, destination, feeRate, maxFee);
    SortSorts(rank, sources);
    SortKeepsOutpoints(rank, sources);
    BuiltSpendsOnce(rank, secret, SortSources(rank, sources), destination, feeRate, maxFee);
  }

  lemma {:induction false} BuiltSpendsOnce(
      rank: Txid -> nat, secret: Token, s: seq<SourceUtxo>, destination: Script, feeRate: u64, maxFee: u64)
    requires Injective(rank) && Sorted(rank, s) && BuildFromSorted(secret, s, destination, feeRate, maxFee).Ok?
    ensures SpendsOnce(BuildFromSorted(secret, s, destination, feeRate, maxFee).value.tx, s, secret)
  {
    hide *;
    BuiltFromSorted(secret, s, destination, feeRate, maxFee);
    SignedSweepSpendsOnce(rank, secret, s,
                          TotalValue(s) - BuildFromSorted(secret, s, destination, feeRate, maxFee).value.fee,
                          destination);
  }

  lemma {:induction false} SignedSweepSpendsOnce(
      rank: Txid -> nat, secret: Token, s: seq<SourceUtxo>, value: u64, destination: Script)
    requires Injective(rank) && Sorted(rank, s) && AdjacentDistinct(s)
    ensures SpendsOnce(SignedSweep(s, value, destination, secret), s, secret)
  {
    AdjacentIsPairwise(rank, s);
    SpendsItsSources(s, value, destination, SweepStacks(s, value, destination, secret));
    var tx := SignedSweep(s, value, destination, secret);
    forall i | 0 <= i < |tx.inputs| ensures SignedInput(tx, i, secret, Prevouts(s)) {
      SweepSignaturesVerify(s, value, destination, secret, i);
    }
  }

  lemma InsertFirst(rank: Txid -> nat, s: seq<SourceUtxo>)
    requires s != [] && (|s| > 1 ==> !Before(rank, s[1].outpoint, s[0].outpoint))
    ensures Insert(rank, s[0], s[1..]) == s
  {
    assert s == [s[0]] + s[1..];
  }

  lemma SortedTail(rank: Txid -> nat, s: seq<SourceUtxo>)
    requires s != [] && Sorted(rank, s)
    ensures Sorted(rank, s[1..]) && (|s| > 1 ==> !Before(rank, s[1].outpoint, s[0].outpoint))
  {
  }

  lemma {:induction false} SortOfSorted(rank: Txid -> nat, s: seq<SourceUtxo>)
    requires Sorted(rank, s)
    ensures SortSources(rank, s) == s
  {
    if s == [] {
    } else {
      SortedTail(rank, s);
      SortOfSorted(rank, s[1..]);
      InsertFirst(rank, s);
    }
  }

  /** Rebuilding from the saved, already sorted sources gives back the same transaction. */
  lemma {:induction false} SweepRebuilds(
      rank: Txid -> nat, secret: Token, sources: seq<SourceUtxo>, destination: Script, feeRate: u64, maxFee: u64)
    ensures BuildSourceSweep(rank, secret, SortSources(rank, sources), destination, feeRate, maxFee)
         == BuildSourceSweep(rank, secret, sources, destination, feeRate, maxFee)
  {
    SortSorts(rank, sources);
    SortOfSorted(rank, SortSources(rank, sources));
  }

  // ---------------------------------------------------------------------------
  // Sweep journal.

  datatype SweepStage = SweepPrepared | SweepArmed | SweepObserved

  datatype SweepJournal = SweepJournal(
    network: NetworkId, destination: Script, sources: seq<SourceUtxo>, feeRate: u64, maxFee: u64, fee: u64, tx: Tx,
    stage: SweepStage)

  function PrepareSweep(
      rank: Txid -> nat, secret: Token, network: NetworkId, sources: seq<SourceUtxo>, destination: Script,
      feeRate: u64, maxFee: u64)
    : Result<SweepJournal, WalletError>
  {
    var sorted := SortSources(rank, sources);
    var built :- BuildSourceSweep(rank, secret, sorted, destination, feeRate, maxFee);
    Ok(SweepJournal(network, destination, sorted, feeRate, maxFee, built.fee, built.tx, SweepPrepared))
  }

  function ValidateSweep(rank: Txid -> nat, secret: Token, journal: SweepJournal): Result<(), WalletError> {
    var expected :- BuildSourceSweep(rank, secret, journal.sources, journal.destination, journal.feeRate,
                                     journal.maxFee);
    Ensure(expected.fee == journal.fee && expected.tx == journal.tx, Refused)
  }

  function ArmSweep(rank: Txid -> nat, secret: Token, journal: SweepJournal): Result<SweepJournal, WalletError> {
    var _ :- ValidateSweep(rank, secret, journal);
    Ok(journal.(stage := SweepArmed))
  }

  function MarkSweepObserved(rank: Txid -> nat, secret: Token, journal: SweepJournal, observed: Tx)
    : Result<SweepJournal, WalletError>
  {
    var _ :- ValidateSweep(rank, secret, journal);
    if !(journal.stage == SweepArmed && observed == journal.tx) then Err(Refused) else
    Ok(journal.(stage := SweepObserved))
  }

  /** A prepared sweep validates, whatever order the sources came in, and journals exactly those sources. */
  lemma PreparedSweepValidates(
      rank: Txid -> nat, secret: Token, network: NetworkId, sources: seq<SourceUtxo>, destination: Script,
      feeRate: u64, maxFee: u64)
    ensures PrepareSweep(rank, secret, network, sources, destination, feeRate, maxFee).Ok?
            <==> BuildSourceSweep(rank, secret, sources, destination, feeRate, maxFee).Ok?
    ensures PrepareSweep(rank, secret, network, sources, destination, feeRate, maxFee).Ok? ==>
              var journal := PrepareSweep(rank, secret, network, sources, destination, feeRate, maxFee).value;
              && ValidateSweep(rank, secret, journal).Ok?
              && Outpoints(journal.sources) == Outpoints(sources) == SpentBy(journal.tx)
  {
    SweepRebuilds(rank, secret, sources, destination, feeRate, maxFee);
    if PrepareSweep(rank, secret, network, sources, destination, feeRate, maxFee).Ok? {
      var journal := PrepareSweep(rank, secret, network, sources, destination, feeRate, maxFee).value;
      SortKeepsOutpoints(rank, sources);
      PreparedSpendsItsSources(rank, secret, journal.sources, destination, feeRate, maxFee);
    }
  }

  lemma {:induction false} PreparedSpendsItsSources(
      rank: Txid -> nat, secret: Token, sources: seq<SourceUtxo>, destination: Script, feeRate: u64, maxFee: u64)
    requires BuildSourceSweep(rank, secret, sources, destination, feeRate, maxFee).Ok?
    ensures SpentBy(BuildSourceSweep(rank, secret, sources, destination, feeRate, maxFee).value.tx)
            == Outpoints(sources)
  {
    BuiltOnSorted(rank, secret, sources, destination, feeRate, maxFee);
    SortKeepsOutpoints(rank, sources);
    BuiltSpends(secret, SortSources(rank, sources), destination, feeRate, maxFee);
  }

  lemma {:induction false} BuiltSpends(
      secret: Token, s: seq<SourceUtxo>, destination: Script, feeRate: u64, maxFee: u64)
    requires BuildFromSorted(secret, s, destination, feeRate, maxFee).Ok?
    ensures SpentBy(BuildFromSorted(secret, s, destination, feeRate, maxFee).value.tx) == Outpoints(s)
  {
    hide BuildFromSorted;
    BuiltFromSorted(secret, s, destination, feeRate, maxFee);
    var value: u64 := TotalValue(s) - BuildFromSorted(secret, s, destination, feeRate, maxFee).value.fee;
    SpendsItsSources(s, value, destination, SweepStacks(s, value, destination, secret));
  }

  /** `build_source_sweep` as written: checks in loops, a checked sum, placeholders, then signatures in place. */
  method BuildSourceSweepInPlace(
      rank: Txid -> nat, secret: Token, given: seq<SourceUtxo>, destination: Script, feeRate: u64, maxFee: u64)
    returns (r: Result<PreparedSourceSweep, WalletError>)
    requires AddressScript(destination)
    ensures r == BuildSourceSweep(rank, secret, given, destination, feeRate, maxFee)
  {
    if given == [] || |given| > 100 || feeRate == 0 { return Err(Refused); }
    if destination == SourceScript(secret) { return Err(Refused); }
    var s := SortSources(rank, given);
    var checked := CheckSources(secret, s);
    if !checked { return Err(Refused); }
    var total := SumSources(s);
    if total.Err? { return Err(total.error); }
    r := FinishSweep(secret, s, total.value, destination, feeRate, maxFee);
  }

  method CheckSources(secret: Token, s: seq<SourceUtxo>) returns (ok: bool)
    ensures ok <==> AllSpendable(secret, s) && AdjacentDistinct(s)
  {
    for i := 0 to |s|
      invariant forall k :: 0 <= k < i ==> SpendableSource(s[k], secret)
    {
      if !SpendableSource(s[i], secret) {
        assert s[i] in s;
        return false;
      }
    }
    for i := 0 to |s|
      invariant forall k :: 0 < k < i ==> s[k - 1].outpoint != s[k].outpoint
    {
      if i > 0 && s[i - 1].outpoint == s[i].outpoint { return false; }
    }
    ok := true;
  }

  /** `try_fold` with `checked_add`: the partial sums overflow exactly when the total does. */
  method SumSources(s: seq<SourceUtxo>) returns (r: Result<u64, WalletError>)
    ensures r == if TotalValue(s) <= U64_MAX then Ok(TotalValue(s)) else Err(Refused)
  {
    var total: u64 := 0;
    for i := 0 to |s|
      invariant total == TotalValue(s[..i])
    {
      TotalPrefix(s, i);
      if total + s[i].output.value > U64_MAX {
        TotalPrefixBound(s, i + 1);
        return Err(Refused);
      }
      total := total + s[i].output.value;
    }
    assert s[..|s|] == s;
    r := Ok(total);
  }

  /** `for (input, signature) in inputs.iter_mut().zip(signatures)`: every placeholder is overwritten. */
  method SignSweep(secret: Token, s: seq<SourceUtxo>, value: u64, destination: Script) returns (tx: Tx)
    ensures tx == SweepTx(s, value, destination, SweepStacks(s, value, destination, secret))
  {
    var unsigned := SweepTx(s, value, destination, Placeholders(|s|));
    var stacks := SweepStacks(s, value, destination, secret);
    var inputs := unsigned.inputs;
    for i := 0 to |s|
      invariant |inputs| == |s|
      invariant forall k :: 0 <= k < i ==> inputs[k] == unsigned.inputs[k].(stack := stacks[k])
      invariant forall k :: i <= k < |s| ==> inputs[k] == unsigned.inputs[k]
    {
      var signature := SourceSignature(unsigned, secret, i, Prevouts(s));
      inputs := inputs[i := inputs[i].(stack := [SigItem(signature)])];
    }
    assert inputs == SweepInputs(s, stacks);
    tx := unsigned.(inputs := inputs);
  }

  method FinishSweep(secret: Token, s: seq<SourceUtxo>, total: u64, destination: Script, feeRate: u64, maxFee: u64)
    returns (r: Result<PreparedSourceSweep, WalletError>)
    ensures r == PaySweep(secret, s, total, destination, feeRate, maxFee)
  {
    hide Vsize, MinimalNonDust, ValidateFundingInputs, SweepInputs;
    var tx := SweepTx(s, 0, destination, Placeholders(|s|));
    var fee := Fee(feeRate, Vsize(tx));
    if fee > U64_MAX || fee > maxFee || fee > total { return Err(Refused); }
    var value: u64 := total - fee;
    if value < MinimalNonDust(tx.outputs[0].script) { return Err(Refused); }
    tx := SignSweep(secret, s, value, destination);
    var valid := ValidateFundingInputs(tx);
    r := if valid.Err? then Err(valid.error) else Ok(PreparedSourceSweep(tx, fee));
  }

  lemma {:induction false} TotalPrefix(s: seq<SourceUtxo>, i: nat)
    requires i < |s|
    ensures TotalValue(s[..i + 1]) == TotalValue(s[..i]) + s[i].output.value
    decreases i
  {
    assert s[..i + 1][1..] == s[1..][..i];
    if i == 0 {
    } else {
      assert s[..i][1..] == s[1..][..i - 1];
      TotalPrefix(s[1..], i - 1);
    }
  }

  lemma {:induction false} TotalPrefixBound(s: seq<SourceUtxo>, i: nat)
    requires i <= |s|
    ensures TotalValue(s[..i]) <= TotalValue(s)
    decreases |s| - i
  {
    if i == |s| {
      assert s[..i] == s;
    } else {
      TotalPrefix(s, i);
      TotalPrefixBound(s, i + 1);
    }
  }
}
