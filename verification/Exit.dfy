/** Exit packages and their journal, wallet-core/src/exit.rs. */
module Exit {
  import opened Wrappers
  import opened Bitcoin
  import opened Client
  import opened Timing
  import opened Transfer
  import opened Validation
  import opened Wallet

  /** First index of a recovery with this txid. */
  function Position(history: seq<SignedRecovery>, txid: Txid): (r: Option<nat>)
    ensures r.Some? ==> r.value < |history| && ComputeTxid(history[r.value].tx) == txid
    ensures r.Some? ==> forall k :: 0 <= k < r.value ==> ComputeTxid(history[k].tx) != txid
    ensures r.None? ==> forall k :: 0 <= k < |history| ==> ComputeTxid(history[k].tx) != txid
  {
    if history == [] then None
    else if ComputeTxid(history[0].tx) == txid then Some(0)
    else
      var rest := Position(history[1..], txid);
      assert forall k :: 0 < k < |history| ==> history[k] == history[1..][k - 1];
      if rest.Some? then Some(rest.value + 1) else None
  }

  function VerifyExitFunding(
      coin: WalletCoin, observed: ObservedFunding, minimumConfirmations: u32,
      spender: Option<Txid>, spenderConfirmed: bool, savedParent: Option<Txid>)
    : Result<(), WalletError>
  {
    if coin.metadata.None? then Err(Refused)
    else
      var metadata := coin.metadata.value;
      var _ :- VerifyObservedOutput(metadata, observed, minimumConfirmations);
      if observed.unspent then Ok(())
      else if spender.None? then Err(Refused)
      else
        var index := Position(coin.history, spender.value);
        if index.None? || coin.withdrawalIndex.None? || index.value > coin.withdrawalIndex.value then Err(Refused)
        else
          var _ :- Lift(VerifyRecovery(metadata, coin.history[index.value]));
          Ensure(
            !spenderConfirmed
            || (index.value == coin.withdrawalIndex.value
                && (savedParent.Some? ==> savedParent.value == spender.value)),
            Refused)
  }

  function OwnedRecovery(coin: WalletCoin, network: NetworkId)
    : Result<(CoinMetadata, SignedRecovery, Token), WalletError>
  {
    if coin.metadata.None? || coin.metadata.value.network != network then Err(Refused)
    else if coin.funding.Some? && coin.funding.value.stage != FundingBroadcast then Err(Refused)
    else if coin.withdrawalSecret.None? || coin.withdrawalIndex.None?
         || coin.withdrawalIndex.value >= |coin.history| then
      Err(Refused)
    else
      var recovery := coin.history[coin.withdrawalIndex.value];
      if Point(coin.withdrawalSecret.value) != recovery.withdrawal then Err(Refused) else
      var _ :- Lift(VerifyRecovery(coin.metadata.value, recovery));
      Ok((coin.metadata.value, recovery, coin.withdrawalSecret.value))
  }

  datatype ExitPackage = ExitPackage(
    network: NetworkId, destination: Script, feeRate: u64, maxFee: u64, fee: u64, recoveryDelay: u32, parent: Tx,
    child: Tx)

  datatype ExitStage = ExitPrepared | SubmissionArmed | ExitObserved

  datatype ExitJournal = ExitJournal(package: ExitPackage, stage: ExitStage)

  function PrepareExit(
      coin: WalletCoin, network: NetworkId, destination: Script, confirmations: u32, feeRate: u64, maxFee: u64)
    : Result<ExitJournal, WalletError>
  {
    if !(feeRate > 0) then Err(Refused) else
    var owned :- OwnedRecovery(coin, network);
    if !(confirmations >= owned.1.delay) then Err(Refused) else
    var child :- Lift(BuildExitChild(owned.1, owned.0.amount, owned.2, destination, feeRate));
    if child.outputs == [] || child.outputs[0].value > owned.0.amount then Err(Refused)
    else
      var fee: u64 := owned.0.amount - child.outputs[0].value;
      if !(fee <= maxFee) then Err(Refused) else
      var package := ExitPackage(network, destination, feeRate, maxFee, fee, owned.1.delay, owned.1.tx, child);
      var _ :- ValidatePackage(package, coin);
      Ok(ExitJournal(package, ExitPrepared))
  }

  function ValidatePackage(package: ExitPackage, coin: WalletCoin): Result<(), WalletError> {
    if !(package.feeRate > 0) then Err(Refused) else
    var owned :- OwnedRecovery(coin, package.network);
    if !(owned.1.delay == package.recoveryDelay && owned.1.tx == package.parent) then Err(Refused) else
    var expected :- Lift(BuildExitChild(owned.1, owned.0.amount, owned.2, package.destination, package.feeRate));
    if expected != package.child || package.child.outputs == [] || package.child.outputs[0].value > owned.0.amount then
      Err(Refused)
    else
      Ensure(package.fee == owned.0.amount - package.child.outputs[0].value && package.fee <= package.maxFee, Refused)
  }

  function ArmExit(journal: ExitJournal, coin: WalletCoin): Result<ExitJournal, WalletError> {
    var _ :- ValidatePackage(journal.package, coin);
    Ok(journal.(stage := SubmissionArmed))
  }

  /** The chain may show the same recovery under another valid witness: only the txid and the signatures count. */
  function ValidateObservedParent(journal: ExitJournal, coin: WalletCoin, parent: Tx): Result<(), WalletError> {
    var _ :- ValidatePackage(journal.package, coin);
    if ComputeTxid(parent) != ComputeTxid(journal.package.parent) then Err(Refused) else
    var owned :- OwnedRecovery(coin, journal.package.network);
    Lift(VerifyRecovery(owned.0, SignedRecovery(parent, owned.1.withdrawal, owned.1.delay)))
  }

  function MarkExitObserved(
      journal: ExitJournal, coin: WalletCoin, parent: Tx, child: Tx): Result<ExitJournal, WalletError> {
    var _ :- ValidatePackage(journal.package, coin);
    if journal.stage != SubmissionArmed then Err(Refused) else
    var _ :- ValidateObservedParent(journal, coin, parent);
    if child != journal.package.child then Err(Refused) else
    Ok(journal.(stage := ExitObserved))
  }

  /** A saved package stays valid as long as the owned recovery it was built from stays the same. */
  lemma PackageDependsOnOwnedRecovery(package: ExitPackage, a: WalletCoin, b: WalletCoin)
    requires OwnedRecovery(a, package.network) == OwnedRecovery(b, package.network)
    ensures ValidatePackage(package, a) == ValidatePackage(package, b)
  {
    hide OwnedRecovery, BuildExitChild;
  }

  /** The saved package is final, spends the owned recovery and pays exactly its recorded fee. */
  lemma PreparedExitIsExact(
      coin: WalletCoin, network: NetworkId, destination: Script, confirmations: u32, feeRate: u64, maxFee: u64)
    requires PrepareExit(coin, network, destination, confirmations, feeRate, maxFee).Ok?
    ensures var p := PrepareExit(coin, network, destination, confirmations, feeRate, maxFee).value.package;
            && ValidatePackage(p, coin).Ok?
            && coin.metadata.Some? && coin.withdrawalIndex.Some? && coin.withdrawalIndex.value < |coin.history|
            && p.parent == coin.history[coin.withdrawalIndex.value].tx
            && p.parent.inputs[0].prevout == coin.metadata.value.outpoint
            && p.child.inputs[0].prevout == OutPoint(ComputeTxid(p.parent), 0)
            && Final(p.recoveryDelay, confirmations)
            && p.fee == Fee(feeRate, Vsize(p.parent) + Vsize(p.child)) <= maxFee
            && p.child.outputs[0].value + p.fee == coin.metadata.value.amount
  {
    hide BuildExitChild, VerifyRecovery, Vsize;
    var owned := OwnedRecovery(coin, network).value;
    ExitChildIsExact(owned.1, owned.0.amount, owned.2, destination, feeRate);
    VerifyRecoveryIsExact(owned.0, owned.1);
  }

  /** The parent is accepted under any valid pair of signatures, and under nothing else. */
  lemma ObservedParentIsAnyGenuineWitness(journal: ExitJournal, coin: WalletCoin, parent: Tx)
    requires ValidatePackage(journal.package, coin).Ok?
    ensures var owned := OwnedRecovery(coin, journal.package.network).value;
            ValidateObservedParent(journal, coin, parent).Ok?
            <==> GenuineRecovery(owned.0, SignedRecovery(parent, owned.1.withdrawal, owned.1.delay))
  {
    var owned := OwnedRecovery(coin, journal.package.network).value;
    var seen := SignedRecovery(parent, owned.1.withdrawal, owned.1.delay);
    VerifyRecoveryIsExact(owned.0, seen);
    GenuineTxid(owned.0, owned.1);
    if VerifyRecovery(owned.0, seen).Ok? {
      GenuineTxid(owned.0, seen);
    }
  }
}
