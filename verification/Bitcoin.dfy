/**
 Bitcoin values with symbolic cryptography: hashes, keys and signatures are
 datatype constructors, so they are injective by construction. Lengths, sizes,
 fees and dust limits are the real numbers.
 */
module Bitcoin {
  import opened Wrappers

  /** 32 bytes drawn at random (capabilities, handoffs, IDs, secret keys), as a number. */
  type Token = nat

  /** An x-only public key: a secret's point, or the BIP 341 tweak of one. */
  datatype PubKey = Point(secret: Token) | Tweaked(internal: PubKey)

  datatype Script =
    | P2tr(internal: PubKey)                                   // key path only
    | Statechain(client: PubKey, enclave: PubKey)              // one two-signature leaf
    | Address(id: nat, length: nat, witnessProgram: bool)      // any other destination

  datatype TxOut = TxOut(value: u64, script: Script)

  datatype Txid = TxidOf(stripped: Tx) | ForeignTxid(id: nat) | ZeroTxid

  datatype OutPoint = OutPoint(txid: Txid, vout: u32) {
    predicate IsNull() {
      txid.ZeroTxid? && vout == U32_MAX
    }
  }

  /** BIP 341 signature messages: everything but the witnesses is committed to. */
  datatype Sighash =
    | ScriptSpend(tx: Tx, prevout: TxOut, client: PubKey, enclave: PubKey)
    | KeySpend(tx: Tx, index: nat, prevouts: seq<TxOut>)

  /** A BIP 340 signature; `nonce` tells apart valid signatures of one message (0 without aux randomness). */
  datatype Signature = Sig(key: PubKey, message: Sighash, nonce: nat)

  predicate VerifySchnorr(signature: Signature, message: Sighash, key: PubKey) {
    signature.key == key && signature.message == message
  }

  datatype WitnessItem =
    | SigItem(signature: Signature)
    | LeafItem(client: PubKey, enclave: PubKey)
    | ControlItem(client: PubKey, enclave: PubKey)
    | Filler(length: nat)
  {
    function Length(): nat {
      match this
      case SigItem(_) => 64
      case LeafItem(_, _) => 68
      case ControlItem(_, _) => 33
      case Filler(n) => n
    }
  }

  datatype TxIn = TxIn(prevout: OutPoint, scriptSig: seq<nat>, sequence: u32, stack: seq<WitnessItem>)

  datatype Tx = Tx(version: nat, lockTime: nat, inputs: seq<TxIn>, outputs: seq<TxOut>)

  function StripInput(input: TxIn): TxIn {
    input.(stack := [])
  }

  /** The transaction without its witnesses. */
  function Strip(tx: Tx): Tx {
    tx.(inputs := seq(|tx.inputs|, i requires 0 <= i < |tx.inputs| => StripInput(tx.inputs[i])))
  }

  /** `Transaction::compute_txid`. */
  function ComputeTxid(tx: Tx): Txid {
    TxidOf(Strip(tx))
  }

  const MAX_MONEY: nat := 2_100_000_000_000_000
  const SEQUENCE_MAX: u32 := 0xffff_ffff
  const MAX_STANDARD_INPUTS: nat := 100
  const MAX_STANDARD_WEIGHT: nat := 400_000

  /** `Sequence::is_rbf` (BIP 125). */
  predicate IsRbf(sequence: u32) {
    sequence < 0xffff_fffe
  }

  function ScriptLength(script: Script): nat {
    match script
    case P2tr(_) => 34
    case Statechain(_, _) => 34
    case Address(_, length, _) => length
  }

  /** Scripts an address can decode to: a witness program or a legacy hash. */
  predicate AddressScript(script: Script) {
    script.Address? ==> script.length <= 42
  }

  /** Compact-size prefix length. */
  function VarInt(n: nat): nat {
    if n < 0xfd then 1 else if n <= 0xffff then 3 else if n <= U32_MAX then 5 else 9
  }

  /** `minimal_non_dust` at the 3000 sat/kvB relay fee. */
  function MinimalNonDust(script: Script): nat {
    var spend := if script.Address? && !script.witnessProgram then 148 else 67;
    3 * (spend + 8 + VarInt(ScriptLength(script)) + ScriptLength(script))
  }

  function InputBaseSize(input: TxIn): nat {
    36 + VarInt(|input.scriptSig|) + |input.scriptSig| + 4
  }

  function InputsBaseSize(inputs: seq<TxIn>): nat {
    if inputs == [] then 0 else InputBaseSize(inputs[0]) + InputsBaseSize(inputs[1..])
  }

  function OutputsSize(outputs: seq<TxOut>): nat {
    if outputs == [] then 0
    else 8 + VarInt(ScriptLength(outputs[0].script)) + ScriptLength(outputs[0].script) + OutputsSize(outputs[1..])
  }

  function WitnessItemsSize(items: seq<WitnessItem>): nat {
    if items == [] then 0
    else VarInt(items[0].Length()) + items[0].Length() + WitnessItemsSize(items[1..])
  }

  function WitnessSize(inputs: seq<TxIn>): nat {
    if inputs == [] then 0
    else VarInt(|inputs[0].stack|) + WitnessItemsSize(inputs[0].stack) + WitnessSize(inputs[1..])
  }

  predicate HasWitness(inputs: seq<TxIn>) {
    exists i :: 0 <= i < |inputs| && inputs[i].stack != []
  }

  function BaseSize(tx: Tx): nat {
    8 + VarInt(|tx.inputs|) + InputsBaseSize(tx.inputs) + VarInt(|tx.outputs|) + OutputsSize(tx.outputs)
  }

  /** BIP 141, section "Transaction size calculations": three times base size plus total size. */
  function Weight(tx: Tx): nat {
    4 * BaseSize(tx) + if HasWitness(tx.inputs) then 2 + WitnessSize(tx.inputs) else 0
  }

  function Vsize(tx: Tx): nat {
    (Weight(tx) + 3) / 4
  }

  /** A fee in satoshis; the original computes the product in 128 bits, where it cannot overflow. */
  function Fee(rate: u64, vsize: nat): nat {
    rate * vsize
  }

  /** Two inputs of the same size, whatever their witness bytes are. */
  predicate SameShape(a: TxIn, b: TxIn) {
    && |a.scriptSig| == |b.scriptSig|
    && |a.stack| == |b.stack|
    && forall k :: 0 <= k < |a.stack| ==> a.stack[k].Length() == b.stack[k].Length()
  }

  lemma {:induction false} SameItemsSameSize(a: seq<WitnessItem>, b: seq<WitnessItem>)
    requires |a| == |b|
    requires forall k :: 0 <= k < |a| ==> a[k].Length() == b[k].Length()
    ensures WitnessItemsSize(a) == WitnessItemsSize(b)
  {
    if a == [] {
    } else {
      assert forall k :: 0 <= k < |a[1..]| ==> a[1..][k] == a[k + 1] && b[1..][k] == b[k + 1];
      SameItemsSameSize(a[1..], b[1..]);
    }
  }

  lemma {:induction false} SameInputsSameSize(a: seq<TxIn>, b: seq<TxIn>)
    requires |a| == |b|
    requires forall i :: 0 <= i < |a| ==> SameShape(a[i], b[i])
    ensures InputsBaseSize(a) == InputsBaseSize(b) && WitnessSize(a) == WitnessSize(b)
  {
    if a == [] {
    } else {
      SameItemsSameSize(a[0].stack, b[0].stack);
      assert forall i :: 0 <= i < |a[1..]| ==> a[1..][i] == a[i + 1] && b[1..][i] == b[i + 1];
      SameInputsSameSize(a[1..], b[1..]);
    }
  }

  /** Signing in place of same-length placeholders leaves the weight, hence the fee, unchanged. */
  lemma SameShapeSameWeight(a: Tx, b: Tx)
    requires |a.inputs| == |b.inputs|
    requires forall i :: 0 <= i < |a.inputs| ==> SameShape(a.inputs[i], b.inputs[i])
    requires OutputsSize(a.outputs) == OutputsSize(b.outputs) && |a.outputs| == |b.outputs|
    ensures Weight(a) == Weight(b)
  {
    SameInputsSameSize(a.inputs, b.inputs);
    if HasWitness(a.inputs) {
      var i :| 0 <= i < |a.inputs| && a.inputs[i].stack != [];
      assert SameShape(a.inputs[i], b.inputs[i]);
      assert b.inputs[i].stack != [];
    }
    if HasWitness(b.inputs) {
      var i :| 0 <= i < |b.inputs| && b.inputs[i].stack != [];
      assert SameShape(a.inputs[i], b.inputs[i]);
      assert a.inputs[i].stack != [];
    }
  }
}
