/**
 The command drivers of wallet/src/cli.rs over the durable file of
 wallet/src/store.rs, one event at a time. An event is a read, a reply, a
 save, something handed to the outside, or a crash; the pure code between two
 events runs inside the event that precedes it. A failing check ends the
 command exactly as a crash does: nothing more is saved.
 */
module Driver {
  import opened Wrappers
  import opened Bitcoin
  import opened Enclave
  import opened Client
  import opened Transfer
  import opened Validation
  import opened Funding
  import opened Wallet
  import opened Exit

  datatype Backend = Explorer | CoreRpc

  /** `rank` orders txids for the deterministic sweep. */
  datatype Config = Config(network: NetworkId, backend: Backend, minConfirmations: u32, minReaction: u32,
                           rank: Txid -> nat)

  /** The encrypted state file. */
  datatype Native = Native(fundingSecret: Token, wallet: WalletState, exit: Option<ExitJournal>,
                           sweep: Option<SweepJournal>)

  /** `NativeWalletState::validate`, which every load runs. */
  predicate NativeValid(cfg: Config, native: Native) {
    && ReplayBindingComplete(native.wallet)
    && (native.exit.Some? ==>
          && native.exit.value.package.network == cfg.network
          && native.wallet.coin.Some?
          && ValidatePackage(native.exit.value.package, native.wallet.coin.value).Ok?)
    && (native.sweep.Some? ==>
          && native.sweep.value.network == cfg.network
          && ValidateSweep(cfg.rank, native.fundingSecret, native.sweep.value).Ok?)
  }

  datatype FundPolicy = FundPolicy(amount: u64, delay: u32, feeRate: u64, maxFee: u64)

  datatype ExitPolicy = ExitPolicy(destination: Script, feeRate: Option<u64>, maxFee: u64)

  datatype SweepPolicy = SweepPolicy(destination: Script, feeRate: u64, maxFee: u64)

  datatype Command =
    | RegisterCmd
    | RequestCmd(coinId: Token, outpoint: OutPoint, amount: u64, minReaction: u32)
    | FundCmd(fund: FundPolicy)
    | SignCmd(request: TransferRequest)
    | AcceptCmd(accepted: TransferRequest, envelope: TransferEnvelope)
    | ExitCmd(exit: ExitPolicy)
    | SweepCmd(sweep: SweepPolicy)

  /** An update of the loaded wallet state, with everything it was computed from. */
  datatype WalletUpdate =
    | BeginRegister(clientSecret: Token, cap: Token, coinId: Token)
    | FinishRegister(status: CoinStatus)
    | BeginFund(source: SourceUtxo, status: CoinStatus, fund: FundPolicy, nextCap: Token, withdrawalSecret: Token)
    | JournalFunding(tx: Tx, outpoint: OutPoint, fee: u64, fund: FundPolicy)
    | JournalAttempt(status: CoinStatus, delay: u32, nextCap: Token, withdrawalSecret: Token)
    | Record(response: SignResponse)
    | Secure(status: CoinStatus)
    | MarkBroadcast(txid: Txid)
    | Ask(coinId: Token, outpoint: OutPoint, amount: u64, minReaction: u32, drawn: Drawn)
    | Begin(request: TransferRequest, status: CoinStatus, observed: ObservedFunding)
    | Finish(status: CoinStatus, ephemeral: Token, nonce: Token)
    | Accept(request: TransferRequest, envelope: TransferEnvelope, status: CoinStatus, observed: ObservedFunding)

  datatype Update =
    | WalletOp(update: WalletUpdate)
    | ExitPrepareOp(exit: ExitPolicy, rate: u64, confirmations: u32)
    | ExitArmOp
    | ExitObserveOp
    | SweepPrepareOp(sources: seq<SourceUtxo>, sweep: SweepPolicy)
    | SweepArmOp
    | SweepObserveOp(tx: Tx)

  /** Four fresh random values; each use takes the ones it needs. */
  datatype Drawn = Drawn(a: Token, b: Token, c: Token, d: Token)

  datatype Pc =
    | Done
    | RegSend | RegWait
    | AskPublish
    | FundStatus | FundSource(status: CoinStatus) | FundRouted | CoreStatus
    | FinStatus | FinValidate(status: CoinStatus) | FinSend | FinWait | FinComplete
    | FundHand
    | SignStatus | SignObserve(status: CoinStatus) | SignRecheck | SignValidate(status: CoinStatus)
    | SignSend | SignWait | SignComplete | SignRelease
    | AcceptStatus | AcceptObserve(status: CoinStatus)
    | ExitLook | ExitChildOnly | ExitFunding | ExitReady(confirmations: u32) | ExitSubmit(parentSeen: bool)
    | ExitConfirm | ExitMark
    | SweepLook | SweepMark(tx: Tx, confirmations: u32) | SweepSettled(confirmations: u32) | SweepReplace | SweepGather
    | SweepReady | SweepInputs | SweepHand | SweepConfirm

  /** Between updates the loaded copy equals the file: the lock excludes other writers. */
  datatype Session =
    | Idle
    | Run(cmd: Command, pc: Pc)
    | Dirty(cmd: Command, next: Pc, op: Update, vol: Native)   // updated in memory, not yet saved

  function CmdOf(session: Session): Command {
    if session.Idle? then RegisterCmd else session.cmd
  }

  function PcOf(session: Session): Pc {
    if session.Run? then session.pc else Done
  }

  function SweepTxOf(native: Native): Tx {
    if native.sweep.Some? then native.sweep.value.tx else BLANK_TX
  }

  /** `handed*` remember every transaction ever given to the network;
      `settled` the sweeps seen confirmed deep enough. */
  datatype Node = Node(
    durable: Native, session: Session,
    handedFunding: set<Tx>, handedChildren: set<Tx>, handedSweeps: set<Tx>, settled: set<Tx>)

  datatype Event =
    | Crash
    | Save
    | Start(cmd: Command, drawn: Drawn)
    | Send
    | GotRegistered(status: CoinStatus)
    | GotStatus(status: CoinStatus, drawn: Drawn)
    | GotSigned(response: SignResponse)
    | Listed(sources: seq<SourceUtxo>, chosen: SourceUtxo, drawn: Drawn)
    | CoreFunded(tx: Tx, outpoint: OutPoint, fee: u64)
    | Observed(funding: ObservedFunding, spender: Option<Txid>, spenderConfirmed: bool, rate: u64)
    | Presence(parent: bool, complete: bool)
    | Seen(found: Option<Tx>, depth: u32)
    | Hand
    | Publish
    | Release

  datatype Output =
    | Silent
    | SentRegister(register: RegisterRequest)
    | SentSign(sign: SignRequest)
    | Published(request: TransferRequest)
    | Released(request: TransferRequest, envelope: TransferEnvelope)

  // ---------------------------------------------------------------------------
  // Updates.

  function FirstOk<T>(r: Result<(WalletState, T), WalletError>): Result<WalletState, WalletError> {
    match r
    case Ok(p) => Ok(p.0)
    case Err(e) => Err(e)
  }

  /** Core backend: journal the prepared transaction before any recovery exists. */
  function CoreJournalFunding(cfg: Config, w: WalletState, tx: Tx, outpoint: OutPoint, fee: u64, fund: FundPolicy)
    : Result<WalletState, WalletError>
  {
    if w.coin.None? || w.pending.Some? || !JustRegistered(w.coin.value) || w.coin.value.currentCap.None?
    then Err(Refused)
    else
      var coin := w.coin.value;
      var metadata := CoinMetadata(coin.keys, cfg.network, outpoint, fund.amount);
      var _ :- ValidateFinalizedFunding(metadata, tx);
      var journal := FundingJournal(tx, fund.delay, fund.feeRate, fund.maxFee, fee, FundingPrepared);
      Ok(w.(coin := Some(coin.(metadata := Some(metadata), funding := Some(journal)))))
  }

  /** Core backend: journal the recovery attempt for the saved transaction. */
  function CoreJournalAttempt(w: WalletState, status: CoinStatus, delay: u32, nextCap: Token, withdrawalSecret: Token)
    : Result<WalletState, WalletError>
  {
    if w.coin.None? || w.pending.Some? || w.coin.value.metadata.None? || w.coin.value.funding.None?
       || w.coin.value.funding.value.stage != FundingPrepared || w.coin.value.currentCap.None?
       || w.coin.value.currentHandoff.None?
    then Err(Refused)
    else
      var coin := w.coin.value;
      var _ :- ValidateFinalizedFunding(coin.metadata.value, coin.funding.value.tx);
      var _ :- Lift(VerifyStatus(coin.keys, status));
      if status.count != 0 then Err(Refused) else
      var pending :- FundAttempt(coin.metadata.value, status, coin, delay, nextCap, withdrawalSecret);
      Ok(w.(pending := Some(pending)))
  }

  function ApplyWallet(cfg: Config, secret: Token, w: WalletState, u: WalletUpdate): Result<WalletState, WalletError> {
    match u
    case BeginRegister(s, cap, id) => FirstOk(BeginRegistration(w, s, cap, id))
    case FinishRegister(status) => Wallet.CompleteRegistration(w, status)
    case BeginFund(source, status, p, nextCap, ws) =>
      FirstOk(BeginFunding(w, cfg.network, secret, source, status, p.amount, p.delay, p.feeRate, p.maxFee,
                           cfg.minReaction,
                           nextCap, ws))
    case JournalFunding(tx, outpoint, fee, p) => CoreJournalFunding(cfg, w, tx, outpoint, fee, p)
    case JournalAttempt(status, delay, nextCap, ws) => CoreJournalAttempt(w, status, delay, nextCap, ws)
    case Record(response) => RecordSignResponse(w, response)
    case Secure(status) => CompleteFunding(w, status)
    case MarkBroadcast(txid) => MarkFundingBroadcast(w, txid)
    case Ask(id, outpoint, amount, margin, d) =>
      FirstOk(BeginTransferRequest(w, cfg.network, id, outpoint, amount, margin, d.a, d.b, d.c, d.d))
    case Begin(request, status, observed) =>
      FirstOk(BeginTransfer(w, cfg.network, request, status, observed, cfg.minConfirmations, cfg.minReaction))
    case Finish(status, ephemeral, nonce) => FirstOk(CompleteTransfer(w, status, ephemeral, nonce))
    case Accept(request, envelope, status, observed) =>
      FirstOk(AcceptTransfer(w, cfg.network, request, envelope, status, observed, cfg.minConfirmations,
                             cfg.minReaction))
  }

  function Apply(cfg: Config, native: Native, op: Update): Result<Native, WalletError> {
    match op
    case WalletOp(u) =>
      var w :- ApplyWallet(cfg, native.fundingSecret, native.wallet, u);
      Ok(native.(wallet := w))
    case ExitPrepareOp(p, rate, confirmations) =>
      if native.wallet.coin.None? then Err(Refused)
      else
        var journal :- PrepareExit(native.wallet.coin.value, cfg.network, p.destination, confirmations, rate, p.maxFee);
        Ok(native.(exit := Some(journal)))
    case ExitArmOp =>
      if native.wallet.coin.None? || native.exit.None? then Err(Refused)
      else
        var journal :- ArmExit(native.exit.value, native.wallet.coin.value);
        Ok(native.(exit := Some(journal)))
    case ExitObserveOp =>
      if native.wallet.coin.None? || native.exit.None? then Err(Refused)
      else
        var saved := native.exit.value;
        var journal :- MarkExitObserved(saved, native.wallet.coin.value, saved.package.parent, saved.package.child);
        Ok(native.(exit := Some(journal)))
    case SweepPrepareOp(sources, p) =>
      var journal :- PrepareSweep(cfg.rank, native.fundingSecret, cfg.network, sources, p.destination, p.feeRate,
                                  p.maxFee);
      Ok(native.(sweep := Some(journal)))
    case SweepArmOp =>
      if native.sweep.None? then Err(Refused)
      else
        var journal :- ArmSweep(cfg.rank, native.fundingSecret, native.sweep.value);
        Ok(native.(sweep := Some(journal)))
    case SweepObserveOp(tx) =>
      if native.sweep.None? then Err(Refused)
      else
        var journal :- MarkSweepObserved(cfg.rank, native.fundingSecret, native.sweep.value, tx);
        Ok(native.(sweep := Some(journal)))
  }

  /** Applies `op` to the loaded copy; the save comes later. */
  function Updating(cfg: Config, native: Native, cmd: Command, op: Update, next: Pc): Session {
    match Apply(cfg, native, op)
    case Ok(vol) => Dirty(cmd, next, op, vol)
    case Err(_) => Idle
  }

  // ---------------------------------------------------------------------------
  // Starting a command: take the lock, load and validate the file, route on what is saved.

  function PolicyMatches(coin: WalletCoin, p: FundPolicy): bool {
    && coin.metadata.Some? && coin.funding.Some?
    && coin.metadata.value.amount == p.amount
    && coin.funding.value.delay == p.delay && coin.funding.value.feeRate == p.feeRate
    && coin.funding.value.maxFee == p.maxFee
    && coin.funding.value.fee <= p.maxFee
  }

  function RouteFund(cfg: Config, native: Native, p: FundPolicy): Session {
    var w := native.wallet;
    if w.coin.None? || !PolicyMatches(w.coin.value, p) then Idle
    else
      match w.pending
      case Some(PendingRegistration(_, _, _)) => Idle
      case Some(PendingRecovery(purpose, stage)) =>
        if !purpose.Fund? || stage.attempt.delay != p.delay then Idle
        else Run(FundCmd(p), if stage.Prepared? then FinStatus else FinComplete)
      case None =>
        if w.coin.value.funding.value.stage != FundingPrepared then Run(FundCmd(p), FundHand)
        else if cfg.backend.CoreRpc? then Run(FundCmd(p), CoreStatus)
        else Idle
  }

  function StartFund(cfg: Config, native: Native, p: FundPolicy): Session {
    if p.delay > U16_MAX || p.delay == 0 || native.wallet.coin.None? then Idle
    else if native.wallet.coin.value.funding.Some? then RouteFund(cfg, native, p)
    else if native.wallet.pending.Some? then Idle
    else if cfg.backend.CoreRpc?
         && (!JustRegistered(native.wallet.coin.value) || native.wallet.coin.value.currentCap.None?) then Idle
    else Run(FundCmd(p), FundStatus)
  }

  function StartSign(native: Native, request: TransferRequest): Session {
    var w := native.wallet;
    if request.Validate().Err? then Idle
    else if w.coin.Some? && w.coin.value.outgoing.Some? then
      if w.coin.value.outgoing.value.request == request then Run(SignCmd(request), SignRelease) else Idle
    else if native.exit.Some? then Idle
    else
      match w.pending
      case Some(PendingRegistration(_, _, _)) => Idle
      case Some(PendingRecovery(purpose, stage)) =>
        if purpose != Transfer(request) then Idle
        else Run(SignCmd(request), if stage.Prepared? then SignRecheck else SignComplete)
      case None =>
        if w.coin.Some? && w.coin.value.metadata.Some? then Run(SignCmd(request), SignStatus) else Idle
  }

  function StartAccept(native: Native, request: TransferRequest, envelope: TransferEnvelope): Session {
    var w := native.wallet;
    if request.Validate().Err? || w.coin.Some? || w.incoming.None? then Idle   // a known coin only reports
    else if DecryptTransfer(request, w.incoming.value.transportSecret, envelope).Err? then Idle
    else Run(AcceptCmd(request, envelope), AcceptStatus)
  }

  predicate ExitPolicyMatches(native: Native, p: ExitPolicy) {
    && native.exit.Some? && native.wallet.coin.Some?
    && ValidatePackage(native.exit.value.package, native.wallet.coin.value).Ok?
    && native.exit.value.package.destination == p.destination
    && native.exit.value.package.maxFee == p.maxFee
    && (p.feeRate.Some? ==> p.feeRate.value == native.exit.value.package.feeRate)
  }

  function StartExit(native: Native, p: ExitPolicy): Session {
    if native.wallet.pending.Some? || native.wallet.coin.None? || native.wallet.coin.value.metadata.None? then Idle
    else if native.exit.Some? && native.exit.value.stage != ExitPrepared then
      if ExitPolicyMatches(native, p) then Run(ExitCmd(p), ExitLook) else Idle
    else Run(ExitCmd(p), ExitFunding)
  }

  function StartCommand(cfg: Config, native: Native, cmd: Command, drawn: Drawn): Session {
    match cmd
    case RegisterCmd =>
      if native.wallet.coin.Some? then Idle
      else
        (match native.wallet.pending
         case Some(PendingRegistration(_, _, _)) => Run(cmd, RegSend)
         case Some(PendingRecovery(_, _)) => Idle
         case None => Updating(cfg, native, cmd, WalletOp(BeginRegister(drawn.a, drawn.b, drawn.c)), RegSend))
    case RequestCmd(id, outpoint, amount, margin) =>
      var larger: u32 := if cfg.minReaction >= margin then cfg.minReaction else margin;
      var op := WalletOp(Ask(id, outpoint, amount, larger, drawn));
      if native.wallet.incoming.Some? && Apply(cfg, native, op).Ok? then Run(cmd, AskPublish)
      else Updating(cfg, native, cmd, op, AskPublish)
    case FundCmd(p) => StartFund(cfg, native, p)
    case SignCmd(request) => StartSign(native, request)
    case AcceptCmd(request, envelope) => StartAccept(native, request, envelope)
    case ExitCmd(p) => StartExit(native, p)
    case SweepCmd(p) =>
      if !cfg.backend.Explorer? || p.feeRate == 0 || !AddressScript(p.destination) then Idle
      else if native.sweep.Some? then Run(cmd, SweepLook)
      else Run(cmd, SweepGather)
  }

  // ---------------------------------------------------------------------------
  // Saving.

  /** Register, request, sign, accept and the Core funding path save the wallet and keep both journals. */
  predicate SavesWalletOnly(cfg: Config, cmd: Command) {
    cmd.RegisterCmd? || cmd.RequestCmd? || cmd.SignCmd? || cmd.AcceptCmd? || (cmd.FundCmd? && cfg.backend.CoreRpc?)
  }

  /** What `save` or `save_native` writes, or `None` when its own validation refuses. */
  function Written(cfg: Config, durable: Native, cmd: Command, vol: Native): Option<Native> {
    if SavesWalletOnly(cfg, cmd) then
      if ReplayBindingComplete(vol.wallet) && NativeValid(cfg, durable) then Some(durable.(wallet := vol.wallet))
      else None
    else
      if NativeValid(cfg, vol) then Some(vol) else None
  }

  function AfterSave(cfg: Config, native: Native, cmd: Command, next: Pc): Session {
    if next.Done? then Idle
    else if next.FundRouted? then if cmd.FundCmd? then RouteFund(cfg, native, cmd.fund) else Idle
    else if next.ExitMark? then Updating(cfg, native, cmd, ExitObserveOp, Done)
    else if next.SweepMark? then
      var tx, confirmations := next.tx, next.confirmations;
      Updating(cfg, native, cmd, SweepObserveOp(tx), SweepSettled(confirmations))
    else if next.SweepSettled? then
      var confirmations := next.confirmations;
      if confirmations >= cfg.minConfirmations then Run(cmd, SweepReplace) else Idle
    else Run(cmd, next)
  }

  // ---------------------------------------------------------------------------
  // Chain-dependent guards.

  function SweepSources(native: Native): set<OutPoint> {
    if native.sweep.Some? then Outpoints(native.sweep.value.sources) else {}
  }

  /** The inputs the saved funding transaction reserves. */
  function Reserved(native: Native): set<OutPoint> {
    if native.wallet.coin.Some? && native.wallet.coin.value.funding.Some?
    then SpentBy(native.wallet.coin.value.funding.value.tx) else {}
  }

  /** The largest eligible deposit output, the outpoint breaking ties. */
  predicate BestSource(cfg: Config, native: Native, sources: seq<SourceUtxo>, chosen: SourceUtxo) {
    && chosen in sources && !chosen.coinbase && chosen.outpoint !in SweepSources(native)
    && forall s :: s in sources && !s.coinbase && s.outpoint !in SweepSources(native) ==>
         || s.output.value < chosen.output.value
         || (s.output.value == chosen.output.value && !Before(cfg.rank, chosen.outpoint, s.outpoint))
  }

  function Eligible(native: Native, sources: seq<SourceUtxo>): (r: seq<SourceUtxo>)
    ensures forall s :: s in r <==> s in sources && !s.coinbase && s.outpoint !in Reserved(native)
  {
    if sources == [] then []
    else
      var rest := Eligible(native, sources[1..]);
      if !sources[0].coinbase && sources[0].outpoint !in Reserved(native) then [sources[0]] + rest else rest
  }

  predicate Larger(rank: Txid -> nat, a: SourceUtxo, b: SourceUtxo) {
    a.output.value > b.output.value || (a.output.value == b.output.value && Before(rank, a.outpoint, b.outpoint))
  }

  function InsertLarger(rank: Txid -> nat, x: SourceUtxo, s: seq<SourceUtxo>): (r: seq<SourceUtxo>)
    ensures forall y :: y in r <==> y == x || y in s
  {
    if s == [] then [x]
    else if !Larger(rank, s[0], x) then [x] + s
    else
      assert forall y :: y in s <==> y == s[0] || y in s[1..];
      [s[0]] + InsertLarger(rank, x, s[1..])
  }

  function ByValue(rank: Txid -> nat, s: seq<SourceUtxo>): (r: seq<SourceUtxo>)
    ensures forall y :: y in r <==> y in s
  {
    if s == [] then []
    else
      assert forall y :: y in s <==> y == s[0] || y in s[1..];
      InsertLarger(rank, s[0], ByValue(rank, s[1..]))
  }

  /** `available_source_sweep_inputs`: unreserved, largest first, at most 100. */
  function Available(cfg: Config, native: Native, sources: seq<SourceUtxo>): (r: seq<SourceUtxo>)
    ensures forall s :: s in r ==> s in sources && !s.coinbase && s.outpoint !in Reserved(native)
  {
    var sorted := ByValue(cfg.rank, Eligible(native, sources));
    if |sorted| > 100 then sorted[..100] else sorted
  }

  /** `validate_explorer_prepared_funding`: the saved transaction is rebuilt from its still unspent source. */
  predicate ExplorerFundingIntact(native: Native, sources: seq<SourceUtxo>) {
    && native.wallet.coin.Some? && native.wallet.coin.value.metadata.Some? && native.wallet.coin.value.funding.Some?
    && var coin := native.wallet.coin.value;
       && coin.funding.value.stage == FundingPrepared
       && coin.funding.value.tx.inputs != []
       && exists s :: s in sources && RebuildsFunding(native, coin, s)
  }

  predicate RebuildsFunding(native: Native, coin: WalletCoin, s: SourceUtxo)
    requires coin.metadata.Some? && coin.funding.Some? && coin.funding.value.tx.inputs != []
  {
    var funding := coin.funding.value;
    && s.outpoint == funding.tx.inputs[0].prevout
    && BuildSourceFunding(coin.keys, native.fundingSecret, s, coin.metadata.value.amount, funding.feeRate,
                          funding.maxFee)
       == Ok(PreparedSourceFunding(funding.tx, coin.metadata.value.outpoint, funding.fee))
  }

  predicate SourcesIntact(native: Native, sources: seq<SourceUtxo>) {
    && native.sweep.Some?
    && forall saved :: saved in native.sweep.value.sources ==> SourceIntact(saved, sources)
  }

  predicate SourceIntact(saved: SourceUtxo, sources: seq<SourceUtxo>) {
    exists s :: s in sources && s.outpoint == saved.outpoint && s.output == saved.output && s.coinbase == saved.coinbase
  }

  predicate SweepPolicyMatches(native: Native, p: SweepPolicy) {
    && native.sweep.Some?
    && native.sweep.value.destination == p.destination
    && native.sweep.value.feeRate == p.feeRate && native.sweep.value.maxFee == p.maxFee
  }

  predicate LiveRegistration(coin: WalletCoin, status: CoinStatus) {
    && VerifyStatus(coin.keys, status).Ok? && status.count == 0
    && coin.currentCap.Some?
    && status.authorization == Authorization(coin.keys.coinId, CapHash(coin.currentCap.value), INITIAL_HANDOFF)
  }

  // ---------------------------------------------------------------------------
  // One event of a running command. `None`: this event is not what the command waits for.

  function StepFund(cfg: Config, native: Native, p: FundPolicy, pc: Pc, event: Event): Option<Session> {
    var cmd := FundCmd(p);
    var w := native.wallet;
    if pc.FundStatus? then
      if !event.GotStatus? then None
      else if cfg.backend.CoreRpc?
              && (!LiveRegistration(CoinOf(w), event.status) || RequireReactionMargin(0, p.delay, cfg.minReaction).Err?)
      then Some(Idle)
      else Some(Run(cmd, FundSource(event.status)))
    else if pc.FundSource? then
      var status := pc.status;
      if cfg.backend.Explorer? then
        if !event.Listed? then None
        else if !BestSource(cfg, native, event.sources, event.chosen) then Some(Idle)
        else Some(Updating(cfg, native, cmd,
                           WalletOp(BeginFund(event.chosen, status, p, event.drawn.a, event.drawn.b)), FundRouted))
      else
        if !event.CoreFunded? then None
        else Some(Updating(cfg, native, cmd, WalletOp(JournalFunding(event.tx, event.outpoint, event.fee, p)),
                           FundRouted))
    else if pc.CoreStatus? then
      if !event.GotStatus? then None
      else Some(Updating(cfg, native, cmd,
                         WalletOp(JournalAttempt(event.status, p.delay, event.drawn.a, event.drawn.b)), FinStatus))
    else if pc.FinStatus? then
      if !event.GotStatus? then None
      else if w.pending.None? || !w.pending.value.PendingRecovery?
           || VerifyStatus(CoinOf(w).keys, event.status).Err? then
        Some(Idle)
      else
        var attempt := w.pending.value.stage.attempt;
        var committed := AttemptCommitted(event.status, attempt);
        if committed.Err? then Some(Idle)
        else if committed.value then Some(Run(cmd, FinSend))
        else if !AttemptUncommitted(event.status, attempt) then Some(Idle)
        else Some(Run(cmd, FinValidate(event.status)))
    else if pc.FinValidate? then
      if cfg.backend.Explorer? then
        if !event.Listed? then None
        else Some(if ExplorerFundingIntact(native, event.sources) then Run(cmd, FinSend) else Idle)
      else
        if !event.Presence? then None
        else
          var coin := CoinOf(w);
          if w.pending.None? || !w.pending.value.PendingRecovery? || coin.metadata.None? || coin.funding.None?
             || coin.funding.value.stage != FundingPrepared
             || ValidateFinalizedFunding(coin.metadata.value, coin.funding.value.tx).Err?
             || RequireReactionMargin(0, w.pending.value.stage.attempt.delay, cfg.minReaction).Err?
          then Some(Idle)
          else Some(Run(cmd, FinSend))
    else if pc.FinWait? then
      if !event.GotSigned? then None
      else Some(Updating(cfg, native, cmd, WalletOp(Record(event.response)), FinComplete))
    else if pc.FinComplete? then
      if !event.GotStatus? then None
      else Some(Updating(cfg, native, cmd, WalletOp(Secure(event.status)), FundHand))
    else None
  }

  function StepSign(cfg: Config, native: Native, request: TransferRequest, pc: Pc, event: Event): Option<Session> {
    var cmd := SignCmd(request);
    if pc.SignStatus? then
      if !event.GotStatus? then None else Some(Run(cmd, SignObserve(event.status)))
    else if pc.SignObserve? then
      var status := pc.status;
      if !event.Observed? then None
      else Some(Updating(cfg, native, cmd, WalletOp(Begin(request, status, event.funding)), SignRecheck))
    else if pc.SignRecheck? then
      if !event.GotStatus? then None else Some(Run(cmd, SignValidate(event.status)))
    else if pc.SignValidate? then
      var status := pc.status;
      if !event.Observed? then None
      else if ValidatePendingTransfer(native.wallet, status, event.funding, cfg.minConfirmations, cfg.minReaction).Err?
      then Some(Idle)
      else Some(Run(cmd, SignSend))
    else if pc.SignWait? then
      if !event.GotSigned? then None
      else Some(Updating(cfg, native, cmd, WalletOp(Record(event.response)), SignComplete))
    else if pc.SignComplete? then
      if !event.GotStatus? then None
      else Some(Updating(cfg, native, cmd, WalletOp(Finish(event.status, event.drawn.a, event.drawn.b)), SignRelease))
    else None
  }

  function StepAccept(
      cfg: Config, native: Native, request: TransferRequest, envelope: TransferEnvelope, pc: Pc, event: Event)
    : Option<Session>
  {
    var cmd := AcceptCmd(request, envelope);
    if pc.AcceptStatus? then
      if !event.GotStatus? then None else Some(Run(cmd, AcceptObserve(event.status)))
    else if pc.AcceptObserve? then
      var status := pc.status;
      if !event.Observed? then None
      else Some(Updating(cfg, native, cmd, WalletOp(Accept(request, envelope, status, event.funding)), Done))
    else None
  }

  /** `mark_exit_observed`: arms a package that never was, then records it as observed. */
  function MarkExit(cfg: Config, native: Native, cmd: Command): Session {
    if native.exit.None? || native.exit.value.stage == ExitObserved then Idle
    else if native.exit.value.stage == ExitPrepared then Updating(cfg, native, cmd, ExitArmOp, ExitMark)
    else Updating(cfg, native, cmd, ExitObserveOp, Done)
  }

  predicate ReplacesPrepared(native: Native, p: ExitPolicy) {
    && native.exit.Some? && native.exit.value.stage == ExitPrepared
    && (native.exit.value.package.destination != p.destination
        || native.exit.value.package.maxFee != p.maxFee
        || (p.feeRate.Some? && p.feeRate.value != native.exit.value.package.feeRate))
  }

  function StepExit(cfg: Config, native: Native, p: ExitPolicy, pc: Pc, event: Event): Option<Session> {
    var cmd := ExitCmd(p);
    if pc.ExitLook? then
      if !event.Presence? then None
      else if event.complete then Some(MarkExit(cfg, native, cmd))
      else if event.parent then Some(Updating(cfg, native, cmd, ExitArmOp, ExitChildOnly))
      else Some(Run(cmd, ExitFunding))
    else if pc.ExitFunding? then
      if !event.Observed? then None
      else
        var saved := if native.exit.Some? then Some(ComputeTxid(native.exit.value.package.parent)) else None;
        if VerifyExitFunding(CoinOf(native.wallet), event.funding, 1, event.spender, event.spenderConfirmed,
                             saved).Err? then
          Some(Idle)
        else if native.exit.None? || ReplacesPrepared(native, p) then
          var rate := if p.feeRate.Some? then p.feeRate.value else event.rate;
          Some(Updating(cfg, native, cmd, ExitPrepareOp(p, rate, event.funding.confirmations),
                        ExitReady(event.funding.confirmations)))
        else Some(Run(cmd, ExitReady(event.funding.confirmations)))
    else if pc.ExitReady? then
      var confirmations := pc.confirmations;
      if !event.Presence? then None
      else if native.exit.None? || !ExitPolicyMatches(native, p) then Some(Idle)
      else if event.complete then Some(MarkExit(cfg, native, cmd))
      else if confirmations < native.exit.value.package.recoveryDelay then Some(Idle)
      else Some(Updating(cfg, native, cmd, ExitArmOp, ExitSubmit(event.parent)))
    else if pc.ExitConfirm? then
      if !event.Presence? then None
      else Some(if event.complete then MarkExit(cfg, native, cmd) else Idle)
    else None
  }

  /** Arms a sweep seen on chain before it was ever armed, then records it as observed. */
  function MarkSweep(cfg: Config, native: Native, cmd: Command, tx: Tx, confirmations: u32): Session {
    if native.sweep.None? then Idle
    else if native.sweep.value.stage == SweepObserved then
      (if confirmations >= cfg.minConfirmations then Run(cmd, SweepReplace) else Idle)
    else if native.sweep.value.stage == SweepPrepared
    then Updating(cfg, native, cmd, SweepArmOp, SweepMark(tx, confirmations))
    else Updating(cfg, native, cmd, SweepObserveOp(tx), SweepSettled(confirmations))
  }

  function StepSweep(cfg: Config, native: Native, p: SweepPolicy, pc: Pc, event: Event): Option<Session> {
    var cmd := SweepCmd(p);
    if pc.SweepLook? then
      if !event.Seen? then None
      else if native.sweep.None? then Some(Idle)
      else
        var journal := native.sweep.value;
        if event.found.Some? then
          Some(if event.found.value == journal.tx then MarkSweep(cfg, native, cmd, journal.tx, event.depth) else Idle)
        else if journal.stage == SweepPrepared && !SweepPolicyMatches(native, p) then Some(Run(cmd, SweepGather))
        else Some(Run(cmd, SweepReady))
    else if pc.SweepReplace? then
      if !event.Listed? then None
      else
        var sources := Available(cfg, native, event.sources);
        Some(if sources == [] then Idle else Updating(cfg, native, cmd, SweepPrepareOp(sources, p), SweepReady))
    else if pc.SweepGather? then
      if !event.Listed? then None
      else
        var sources := Available(cfg, native, event.sources);
        Some(if sources == [] then Idle else Updating(cfg, native, cmd, SweepPrepareOp(sources, p), SweepReady))
    else if pc.SweepReady? then
      if !event.Seen? then None
      else if !SweepPolicyMatches(native, p) || ValidateSweep(cfg.rank, native.fundingSecret, native.sweep.value).Err?
           then Some(Idle)
      else if event.found.Some? then
        // Found on chain already: recorded, but the next sweep waits for another run.
        Some(if event.found.value == native.sweep.value.tx then MarkSweep(cfg, native, cmd, native.sweep.value.tx, 0)
             else Idle)
      else Some(Run(cmd, SweepInputs))
    else if pc.SweepInputs? then
      if !event.Listed? then None
      else Some(if SourcesIntact(native, event.sources) then Updating(cfg, native, cmd, SweepArmOp, SweepHand)
                else Idle)
    else if pc.SweepConfirm? then
      if !event.Seen? then None
      else if event.found.None? || native.sweep.None? then Some(Idle)
      else Some(Updating(cfg, native, cmd, SweepObserveOp(event.found.value), Done))
    else None
  }

  function StepSession(cfg: Config, native: Native, cmd: Command, pc: Pc, event: Event): Option<Session> {
    match cmd
    case RegisterCmd =>
      if pc.RegWait? && event.GotRegistered?
           then Some(Updating(cfg, native, cmd, WalletOp(FinishRegister(event.status)), Done))
      else None
    case RequestCmd(_, _, _, _) => None
    case FundCmd(p) => if native.wallet.coin.Some? then StepFund(cfg, native, p, pc, event) else Some(Idle)
    case SignCmd(request) => StepSign(cfg, native, request, pc, event)
    case AcceptCmd(request, envelope) => StepAccept(cfg, native, request, envelope, pc, event)
    case ExitCmd(p) => if native.wallet.coin.Some? then StepExit(cfg, native, p, pc, event) else Some(Idle)
    case SweepCmd(p) => StepSweep(cfg, native, p, pc, event)
  }

  // ---------------------------------------------------------------------------
  // Events with an outside effect.

  function StepSend(node: Node): Option<(Node, Output)> {
    if !node.session.Run? then None
    else
      var Run(cmd, pc) := node.session;
      var w := node.durable.wallet;
      if pc.RegSend? then
        if w.pending.Some? && w.pending.value.PendingRegistration?
        then Some((node.(session := Run(cmd, RegWait)), SentRegister(w.pending.value.registration.request)))
        else Some((node.(session := Idle), Silent))
      else if pc.FinSend? || pc.SignSend? then
        var request := PendingSignRequest(w);
        if request.Err? then Some((node.(session := Idle), Silent))
        else Some((node.(session := Run(cmd, if pc.FinSend? then FinWait else SignWait)), SentSign(request.value)))
      else None
  }

  /** Handing transactions to the network. */
  function StepHand(cfg: Config, node: Node): Option<Node> {
    if !node.session.Run? then None
    else
      var Run(cmd, pc) := node.session;
      var native := node.durable;
      if pc.FundHand? then
        var tx := FundingTransaction(native.wallet);
        if tx.Err? || native.wallet.coin.None? || native.wallet.coin.value.funding.None?
             then Some(node.(session := Idle))
        else
          var next := if native.wallet.coin.value.funding.value.stage == FundingBroadcast then Idle
                      else Updating(cfg, native, cmd, WalletOp(MarkBroadcast(ComputeTxid(tx.value))), Done);
          Some(node.(session := next, handedFunding := node.handedFunding + {tx.value}))
      else if pc.ExitChildOnly? then
        if native.exit.None? then Some(node.(session := Idle))
        else Some(node.(session := Run(cmd, ExitConfirm), handedChildren := node.handedChildren
                        + {native.exit.value.package.child}))
      else if pc.ExitSubmit? then
        if native.exit.None? then Some(node.(session := Idle))
        else Some(node.(session := Run(cmd, ExitConfirm), handedChildren := node.handedChildren
                        + {native.exit.value.package.child}))
      else if pc.SweepHand? then
        if native.sweep.None? then Some(node.(session := Idle))
        else Some(node.(session := Run(cmd, SweepConfirm), handedSweeps := node.handedSweeps + {native.sweep.value.tx}))
      else None
  }

  function StepShare(node: Node, event: Event): Option<(Node, Output)> {
    if !node.session.Run? then None
    else
      var w := node.durable.wallet;
      if event.Publish? && node.session.pc.AskPublish? then
        Some((node.(session := Idle), if w.incoming.Some? then Published(w.incoming.value.request) else Silent))
      else if event.Release? && node.session.pc.SignRelease? then
        Some((node.(session := Idle),
              if w.coin.Some? && w.coin.value.outgoing.Some?
              then Released(w.coin.value.outgoing.value.request, w.coin.value.outgoing.value.envelope) else Silent))
      else None
  }

  function StepSave(cfg: Config, node: Node): Option<Node> {
    if !node.session.Dirty? then None
    else
      var written := Written(cfg, node.durable, node.session.cmd, node.session.vol);
      if written.None? then Some(node.(session := Idle))
      else Some(node.(durable := written.value,
                      session := AfterSave(cfg, written.value, node.session.cmd, node.session.next)))
  }

  /** A sweep seen on chain with enough confirmations no longer needs its journal. */
  function Settling(cfg: Config, node: Node, event: Event): set<Tx> {
    if event.Seen? && event.found.Some? && event.depth >= cfg.minConfirmations then node.settled + {event.found.value}
    else node.settled
  }

  function StepNode(cfg: Config, node: Node, event: Event): Option<(Node, Output)> {
    if event.Crash? then Some((node.(session := Idle), Silent))
    else if event.Save? then
      var n := StepSave(cfg, node); if n.None? then None else Some((n.value, Silent))
    else if event.Start? then
      var cmd, drawn := event.cmd, event.drawn;
      if !node.session.Idle? then None
      else if !NativeValid(cfg, node.durable) then Some((node, Silent))
      else Some((node.(session := StartCommand(cfg, node.durable, cmd, drawn)), Silent))
    else if event.Send? then StepSend(node)
    else if event.Hand? then
      var n := StepHand(cfg, node); if n.None? then None else Some((n.value, Silent))
    else if event.Publish? then StepShare(node, event)
    else if event.Release? then StepShare(node, event)
    else
      if !node.session.Run? then None
      else
        var session := StepSession(cfg, node.durable, node.session.cmd, node.session.pc, event);
        if session.None? then None
        else Some((node.(session := session.value, settled := Settling(cfg, node, event)), Silent))
  }

  function FreshNode(fundingSecret: Token): Node {
    Node(Native(fundingSecret, EMPTY, None, None), Idle, {}, {}, {}, {})
  }
}
