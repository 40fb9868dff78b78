/** Transfer requests, payloads and sealed envelopes of wallet-core/src/transfer.rs. */
module Transfer {
  import opened Wrappers
  import opened Bitcoin
  import opened Enclave
  import opened Client

  datatype WalletError =
    | ClientFailure(client: ClientError)
    | JournalMismatch          // "pending signing journal does not match live enclave state"
    | TooLarge                 // "transfer package exceeds 8 MiB ciphertext limit"
    | FundingSpent             // "Tinylayer funding output is spent"
    | UnsafeMargin             // reaction margin overflow or violation
    | Refused                  // any other `ensure!`, `context` or `bail!`

  function Lift<T>(r: Result<T, ClientError>): Result<T, WalletError> {
    match r
    case Ok(v) => Ok(v)
    case Err(e) => Err(ClientFailure(e))
  }

  datatype TransferRequest = TransferRequest(
    requestId: Token,
    coinId: Token,
    network: NetworkId,
    outpoint: OutPoint,
    amount: u64,
    withdrawal: PubKey,
    nextCapHash: CapHash,
    transportKey: PubKey,
    minReaction: u32)
  {
    /** Strings already parsed; the canonical-spelling checks are in module Encoding. */
    function Validate(): Result<(), WalletError> {
      Ensure(!outpoint.IsNull() && amount <= MAX_MONEY, Refused)
    }
  }

  datatype TransferPayload = TransferPayload(
    requestId: Token,
    clientSecret: Token,
    handoff: Token,
    metadata: CoinMetadata,
    history: seq<SignedRecovery>)

  // ---------------------------------------------------------------------------
  // Compact JSON sizes, field by field; each numeral is the length of the literal beside it.

  type byte = b: nat | b < 256

  function Digits(n: nat): nat {
    if n < 10 then 1 else 1 + Digits(n / 10)
  }

  /** `[1,2,...]` for a byte array. */
  function ByteArraySize(bytes: seq<byte>): nat {
    2 + ByteItemsSize(bytes)
  }

  function ByteItemsSize(bytes: seq<byte>): nat {
    if bytes == [] then 0
    else Digits(bytes[0]) + (if |bytes| > 1 then 1 else 0) + ByteItemsSize(bytes[1..])
  }

  /** The 32 little-endian bytes of a token. */
  function TokenBytes(token: Token): seq<byte> {
    BytesOf(token, 32)
  }

  function BytesOf(n: nat, width: nat): (r: seq<byte>)
    ensures |r| == width
  {
    if width == 0 then [] else [n % 256] + BytesOf(n / 256, width - 1)
  }

  /** `[u8::MAX; n]` */
  function MaxBytes(n: nat): (r: seq<byte>)
    ensures |r| == n && forall i :: 0 <= i < n ==> r[i] == 255
  {
    if n == 0 then [] else [255] + MaxBytes(n - 1)
  }

  /** A quoted lowercase hex string. */
  function HexSize(bytes: nat): nat {
    2 + 2 * bytes
  }

  function NetworkNameSize(network: NetworkId): nat {
    match network
    case Mutinynet => 11  // "mutinynet"
    case Mainnet => 9  // "mainnet"
    case Regtest => 9  // "regtest"
  }

  function OutPointSize(outpoint: OutPoint): nat {
    2 + 64 + 1 + Digits(outpoint.vout)  // ""  :
  }

  function StackSize(stack: seq<WitnessItem>): nat {
    if stack == [] then 0
    else HexSize(stack[0].Length()) + (if |stack| > 1 then 1 else 0) + StackSize(stack[1..])
  }

  function InputSize(input: TxIn): nat {
    19 + OutPointSize(input.prevout) + 14 + HexSize(|input.scriptSig|)  // {"previous_output":  ,"script_sig":
    + 12 + Digits(input.sequence) + 12 + StackSize(input.stack) + 2  // ,"sequence":  ,"witness":[  ]}
  }

  function OutputSize(output: TxOut): nat {
    9 + Digits(output.value) + 17 + HexSize(ScriptLength(output.script)) + 1  // {"value":  ,"script_pubkey":  }
  }

  function InputListSize(inputs: seq<TxIn>): nat {
    if inputs == [] then 0
    else InputSize(inputs[0]) + (if |inputs| > 1 then 1 else 0) + InputListSize(inputs[1..])
  }

  function OutputListSize(outputs: seq<TxOut>): nat {
    if outputs == [] then 0
    else OutputSize(outputs[0]) + (if |outputs| > 1 then 1 else 0) + OutputListSize(outputs[1..])
  }

  function TxSize(tx: Tx): nat {
    11 + Digits(tx.version) + 13 + Digits(tx.lockTime)  // {"version":  ,"lock_time":
    + 10 + InputListSize(tx.inputs) + 12 + OutputListSize(tx.outputs) + 2  // ,"input":[  ],"output":[  ]}
  }

  function RecoverySize(recovery: SignedRecovery): nat {
    15 + TxSize(recovery.tx) + 27 + HexSize(32)  // {"transaction":  ,"withdrawal_xonly_pubkey":
    + 16 + Digits(recovery.delay) + 1  // ,"delay_blocks":  }
  }

  function HistorySize(history: seq<SignedRecovery>): nat {
    if history == [] then 0
    else RecoverySize(history[0]) + (if |history| > 1 then 1 else 0) + HistorySize(history[1..])
  }

  function MetadataSize(metadata: CoinMetadata): nat {
    40 + ByteArraySize(TokenBytes(metadata.keys.coinId))  // {"keys":{"protocol_version":1,"coin_id":
    + 17 + HexSize(32) + 18 + HexSize(32)  // ,"client_pubkey":  ,"enclave_pubkey":
    + 12 + NetworkNameSize(metadata.network) + 12 + OutPointSize(metadata.outpoint)  // },"network":  ,"outpoint":
    + 14 + Digits(metadata.amount) + 1  // ,"amount_sat":  }
  }

  /** Length of `serde_json::to_vec` of a payload. */
  function JsonSize(
      requestId: seq<byte>, handoff: seq<byte>, metadata: CoinMetadata, history: seq<SignedRecovery>): nat {
    54 + ByteArraySize(requestId)  // {"format_version":1,"protocol_version":1,"request_id":
    + 17 + HexSize(32) + 19 + ByteArraySize(handoff)  // ,"client_secret":  ,"current_handoff":
    + 12 + MetadataSize(metadata) + 12 + HistorySize(history) + 2  // ,"metadata":  ,"history":[  ]}
  }

  function PayloadSize(payload: TransferPayload): nat {
    JsonSize(TokenBytes(payload.requestId), TokenBytes(payload.handoff), payload.metadata, payload.history)
  }

  const MAX_TRANSFER_CIPHERTEXT_SIZE: nat := 8 * 1024 * 1024 - 4096
  const MAX_FILE_SIZE: nat := 16 * 1024 * 1024
  const POLY1305_TAG: nat := 16

  function ValidatePlaintextSize(size: nat): Result<(), WalletError> {
    Ensure(size + POLY1305_TAG <= MAX_TRANSFER_CIPHERTEXT_SIZE, TooLarge)
  }

  /** `recovery_serialization_template`: maximum-width witness bytes, unsigned. */
  function SerializationTemplate(prepared: PreparedRecovery): Result<SignedRecovery, ClientError> {
    if prepared.tx.inputs == [] then Err(TransactionMismatch)
    else
      var keys := prepared.metadata.keys;
      var stack := prepared.tx.inputs[0].stack
                   + [Filler(64), Filler(64), LeafItem(keys.client, keys.enclave),
                      ControlItem(keys.client, keys.enclave)];
      Ok(SignedRecovery(WithStack(prepared.tx, stack), prepared.withdrawal, prepared.delay))
  }

  // ---------------------------------------------------------------------------
  // Sealing: ECDH, a request-salted key and an AEAD, all symbolic.

  datatype Shared = SharedPoint(low: Token, high: Token) | SharedTweak(public: PubKey, secret: Token)

  function Ecdh(public: PubKey, secret: Token): Shared {
    match public
    case Point(p) => if p <= secret then SharedPoint(p, secret) else SharedPoint(secret, p)
    case Tweaked(_) => SharedTweak(public, secret)
  }

  datatype TransferKey = TransferKey(shared: Shared, salt: Token)

  datatype Ciphertext = Sealed(key: TransferKey, nonce: Token, aad: TransferRequest, payload: TransferPayload)

  datatype TransferEnvelope = TransferEnvelope(requestId: Token, ephemeral: PubKey, nonce: Token,
                                               ciphertext: Ciphertext)

  /** SHA-256 of the length-prefixed preimage; module Encoding shows the preimage injective. */
  datatype Fingerprint = Fingerprint(envelope: TransferEnvelope)

  function EncryptTransfer(request: TransferRequest, payload: TransferPayload, ephemeral: Token, nonce: Token)
    : Result<TransferEnvelope, WalletError>
  {
    var _ :- request.Validate();
    if payload.requestId != request.requestId then Err(Refused) else
    var _ :- ValidatePlaintextSize(PayloadSize(payload));
    var key := TransferKey(Ecdh(request.transportKey, ephemeral), payload.requestId);
    Ok(TransferEnvelope(request.requestId, Point(ephemeral), nonce, Sealed(key, nonce, request, payload)))
  }

  function DecryptTransfer(request: TransferRequest, transportSecret: Token, envelope: TransferEnvelope)
    : Result<TransferPayload, WalletError>
  {
    var _ :- request.Validate();
    if envelope.requestId != request.requestId then Err(Refused) else
    var _ :- ValidatePlaintextSize(PayloadSize(envelope.ciphertext.payload));
    var key := TransferKey(Ecdh(envelope.ephemeral, transportSecret), request.requestId);
    var c := envelope.ciphertext;
    if !(c.key == key && c.nonce == envelope.nonce && c.aad == request) then Err(Refused) else
    if c.payload.requestId != request.requestId then Err(Refused) else
    Ok(c.payload)
  }

  /** Whatever was sealed to a request opens, with the requested key, to the same payload. */
  lemma SealThenOpen(
      request: TransferRequest, payload: TransferPayload, transportSecret: Token, ephemeral: Token, nonce: Token)
    requires request.transportKey == Point(transportSecret)
    requires EncryptTransfer(request, payload, ephemeral, nonce).Ok?
    ensures DecryptTransfer(request, transportSecret, EncryptTransfer(request, payload, ephemeral, nonce).value)
            == Ok(payload)
  {
  }

  /** A package opens only under the exact request it was sealed to, and only with that request's key. */
  lemma OpenBindsRequest(request: TransferRequest, other: TransferRequest, payload: TransferPayload,
                         transportSecret: Token, ephemeral: Token, nonce: Token)
    requires EncryptTransfer(request, payload, ephemeral, nonce).Ok?
    requires DecryptTransfer(other, transportSecret, EncryptTransfer(request, payload, ephemeral, nonce).value).Ok?
    ensures other == request && request.transportKey == Point(transportSecret)
  {
  }

  // ---------------------------------------------------------------------------
  // The size template dominates every real payload.

  lemma {:induction false} ByteItemsBound(bytes: seq<byte>)
    ensures ByteItemsSize(bytes) <= 4 * |bytes| - (if bytes == [] then 0 else 1)
    ensures (forall i :: 0 <= i < |bytes| ==> bytes[i] == 255) ==>
              ByteItemsSize(bytes) == 4 * |bytes| - (if bytes == [] then 0 else 1)
  {
    if bytes == [] {
    } else {
      ByteItemsBound(bytes[1..]);
      assert forall i :: 0 <= i < |bytes| - 1 ==> bytes[1..][i] == bytes[i + 1];
      assert Digits(bytes[0]) <= 3 by { ByteDigits(bytes[0]); }
      if forall i :: 0 <= i < |bytes| ==> bytes[i] == 255 {
        assert Digits(255) == 3;
      }
    }
  }

  lemma {:induction false} ByteDigits(b: byte)
    ensures 1 <= Digits(b) <= 3
  {
    assert Digits(b / 10) == if b / 10 < 10 then 1 else 1 + Digits(b / 100);
  }

  lemma {:induction false} StackSizeByLength(a: seq<WitnessItem>, b: seq<WitnessItem>)
    requires |a| == |b| && forall i :: 0 <= i < |a| ==> a[i].Length() == b[i].Length()
    ensures StackSize(a) == StackSize(b)
  {
    if a == [] {
    } else {
      assert forall i :: 0 <= i < |a| - 1 ==> a[1..][i] == a[i + 1] && b[1..][i] == b[i + 1];
      StackSizeByLength(a[1..], b[1..]);
    }
  }

  lemma {:induction false} HistorySizeAppend(history: seq<SignedRecovery>, a: SignedRecovery, b: SignedRecovery)
    requires RecoverySize(a) == RecoverySize(b)
    ensures HistorySize(history + [a]) == HistorySize(history + [b])
  {
    hide RecoverySize;
    if history == [] {
    } else {
      HistorySizeAppend(history[1..], a, b);
      assert (history + [a])[1..] == history[1..] + [a];
      assert (history + [b])[1..] == history[1..] + [b];
    }
  }

  /**
   The template checked before signing is at least as large as the payload
   built after signing, for every request ID, handoff and pair of signatures.
   */
  lemma TemplateDominates(
      prepared: PreparedRecovery, history: seq<SignedRecovery>, metadata: CoinMetadata,
      requestId: Token, handoff: Token, enclave: Signature, client: Signature)
    requires |prepared.tx.inputs| == 1 && prepared.tx.inputs[0].stack == []
    requires SerializationTemplate(prepared).Ok?
    ensures var template := SerializationTemplate(prepared).value;
            var keys := prepared.metadata.keys;
            var completed := SignedRecovery(WithStack(prepared.tx, RecoveryWitness(enclave, client, keys)),
                                            prepared.withdrawal, prepared.delay);
            JsonSize(TokenBytes(requestId), TokenBytes(handoff), metadata, history + [completed])
              <= JsonSize(MaxBytes(32), MaxBytes(32), metadata, history + [template])
  {
    var template := SerializationTemplate(prepared).value;
    var keys := prepared.metadata.keys;
    var stack := RecoveryWitness(enclave, client, keys);
    var completed := SignedRecovery(WithStack(prepared.tx, stack), prepared.withdrawal, prepared.delay);
    StackSizeByLength(template.tx.inputs[0].stack, stack);
    assert InputListSize(template.tx.inputs) == InputSize(template.tx.inputs[0]);
    assert InputListSize(completed.tx.inputs) == InputSize(completed.tx.inputs[0]);
    HistorySizeAppend(history, completed, template);
    ByteItemsBound(MaxBytes(32));
    ByteItemsBound(TokenBytes(requestId));
    ByteItemsBound(TokenBytes(handoff));
  }

  /** Length of the pretty-printed envelope file, newline included. */
  function EnvelopeFileSize(envelope: TransferEnvelope): nat {
    41 + HexSize(32)  // {\n  "format_version": 1,\n  "request_id": 
    + 28 + HexSize(33)  // ,\n  "ephemeral_public_key": 
    + 13 + HexSize(24)  // ,\n  "nonce": 
    + 18 + HexSize(PayloadSize(envelope.ciphertext.payload) + POLY1305_TAG) + 3  // ,\n  "ciphertext":   \n}\n
  }

  /** Every envelope that can be sealed fits the artifact limit its reader enforces. */
  lemma EnvelopeFitsArtifact(request: TransferRequest, payload: TransferPayload, ephemeral: Token, nonce: Token)
    requires EncryptTransfer(request, payload, ephemeral, nonce).Ok?
    ensures EnvelopeFileSize(EncryptTransfer(request, payload, ephemeral, nonce).value) <= MAX_FILE_SIZE
  {
  }
}
