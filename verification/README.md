# A model of the Tinylayer statechain

Tinylayer moves a Bitcoin coin between owners off chain. The coin sits in an
output that a client key and an enclave key must sign together. A fail-stop
signer keeps, per coin, a commitment that the next request has to open; each
signature rotates that commitment. Every owner holds a fully signed recovery
transaction whose relative delay is ten blocks shorter than the previous
owner's, so the newest owner can always settle first.

This project models the signer, the wallet journal, the command drivers with
their saves and crashes, the transaction builders and the transfer encodings,
and proves what they keep: for each piece on its own, for one wallet in any
environment, and for any number of wallets and one signer over an asynchronous
network.

## Layout

| file | models | kind |
|---|---|---|
| `Bitcoin.dfy` | transactions, sizes, fees, dust, symbolic keys and signatures | values |
| `Enclave.dfy` | `enclave/src/lib.rs`: the signer class and the append-only log it refines | class |
| `Client.dfy`, `Timing.dfy` | `client/src/lib.rs`: recoveries, histories, reaction windows, the exit child | checks, one in-place builder |
| `Validation.dfy` | `wallet-core/src/validation.rs` | checks |
| `Transfer.dfy`, `Encoding.dfy` | `wallet-core/src/transfer.rs`: requests, sealing, sizes, byte encodings | checks, append loops |
| `Funding.dfy` | `wallet-core/src/funding.rs`: funding and sweep builders, sweep journal | functions, in-place builders |
| `Wallet.dfy`, `WalletObject.dfy` | `wallet-core/src/state.rs`, `wallet/src/store.rs` | specification functions, classes |
| `Exit.dfy` | `wallet-core/src/exit.rs` | checks, journal transitions |
| `Driver.dfy` | `wallet/src/cli.rs`, `wallet/src/model.rs`: the commands, one event at a time | step function |
| `Updates.dfy`, `DriverSafety.dfy` | one wallet's commands in an arbitrary environment | invariants over runs |
| `Protocol.dfy` | all wallets, the signer, the network | step function |
| `Ledger.dfy`, `Agreement.dfy`, `Growth.dfy`, `AgreementSigner.dfy`, `AgreementUpdates.dfy`, `AgreementWallet.dfy`, `AgreementSteps.dfy`, `Fitting.dfy` | the joint invariant and its proof | lemmas |
| `JointFacts.dfy`, `Handover.dfy`, `JointTheorems.dfy` | what holds in every state of the joint system | lemmas |
| `Capacity.dfy`, `Sending.dfy` | when `begin_transfer` succeeds, and that size never refuses | lemmas |
| `Resume.dfy`, `Rerun.dfy`, `Progress.dfy`, `Lifecycle.dfy`, `Opening.dfy` | runs: resuming after a crash, sending, a whole hand-over, registering and funding | lemmas over runs |
| `Sources.dfy` | where every signature of a coin came from | invariant over runs |
| `Failures.dfy`, `Restarts.dfy` | concrete runs that end badly, and what a signer restart leaves of a wallet | lemmas over runs |

Cryptography is symbolic: a hash, a key, a signature or a ciphertext is a
datatype value that carries what it commits to, so it is injective by
construction. Random values come from a counter and never repeat. Integers have
their real bounds, and checked arithmetic is written out. A failing check in a
command ends it exactly like a crash: nothing more is saved.

A run of one wallet is a sequence of events: what it reads, the replies it
gets, its saves, what it hands out, and crashes between any two of these. A run
of the joint system interleaves such events of all wallets with deliveries to
the signer (of anything ever sent, any number of times) and signer restarts. What
the chain shows is never constrained, except where a result says so.

Two properties one might expect are false of the code, and the model says
exactly when they hold:

* "Exactly one wallet can move the coin" fails after somebody signs to a
  transfer request that was already consumed. Nothing refuses that
  (`Handover.BeginIgnoresReuse`), and it runs through like any other transfer.
  Afterwards nobody holds the live capability if and only if a recovery in the
  sender's own history already pays the withdrawal key the request names
  (`Progress.ReuseStrandsCoin`, `JointTheorems.ReuseIsVisible`): the sender can
  look that up before it calls `begin_transfer`. Anyone with a full history can
  see it afterwards: the coin can be moved if and only if the newest recovery
  pays a key that no earlier one pays (`JointTheorems.OwnerIsVisible`). In terms
  of the signer's log this says that the live capability was not spent before
  (`JointTheorems.OneLiveOwner`). From any owner with two newcomers a run to a
  coin that nobody can move exists (`Failures.OwnerCanStrand`), and one from new
  wallets is given (`Failures.SomeCoinIsStranded`). Two wallets never hold the
  live capability at once.
* "A saved response can always be applied" fails after a restart, for a stray
  response under a re-registered key and for a genuine one alike. For every
  status the signer shows, the completion succeeds if and only if the status
  names the coin's own enclave key (`JointTheorems.SavedResponseApplies`). A
  stray response is journaled all the same and then completes for no status at
  all (`JointFacts.StrayResponseNeverCompletes`). A run from new wallets to one
  is given (`Failures.SomeResponseIsStray`); such a wallet never changes again
  (`Failures.StuckForever`). More generally no attempt that is pending under a
  key that died is ever finished, unless its completion was already waiting to
  be saved (`Restarts.PendingForever`, `Restarts.WhoGetsFree`).

A `hide` statement at the top of a proof names definitions that the proof does
not need; it only keeps the solver from unfolding them.

Lemmas whose statement mentions a recursive function over sequences carry
`{:induction false}`; where induction is used it is written out.

## Model

| member | source | states |
|---|---|---|
| Rerun.EveryRerunArrives | wallet/src/cli.rs:1362-1441 | From a signed attempt whose command is running again with a living signer, over any moves of anybody, as long as the signer does not restart, the wallet does not crash and the status it is shown is its own coin's: either the attempt has been applied within these moves, or the wallet took fewer own steps than were left, at most six; no event aborts the rerun or throws it back |
| Rerun.NeverStuck | wallet/src/cli.rs:1362-1441 | Such a rerun can always take a step of its own, at once or after the signer answered its request once more |
| Rerun.RerunStarts | wallet/src/cli.rs:1336-1441 | An idle wallet whose attempt is signed, or whose response is saved, can be brought to where its command is running again |
| Rerun.EventAdvances | wallet/src/cli.rs:1362-1441 | Every event such a rerun accepts, whatever the chain shows and whichever copy of an answer arrives, leaves strictly fewer steps to go and keeps the same attempt or has just applied it |
| Resume.RerunApplies | wallet/src/cli.rs:1362-1441 | From every reachable state with a journaled attempt, an idle wallet and a living signer there is a run of the same command to the applied state: for every chain observation once the attempt is signed or a response is saved, before that whenever a transfer re-validates or a funding's source is still intact; the coin's log has then exactly one entry more than the wallet's history had |
| Progress.TransferRunsThrough | wallet/src/cli.rs:1336-1443 | Whatever `begin_transfer` accepts can be carried through a crash to a state in which the coin is sent to exactly that request, one recovery further |
| Progress.ReuseStrandsCoin | wallet-core/src/state.rs:457-588 | Whatever request `begin_transfer` accepts, there is a run that sends the coin to it, and afterwards some wallet holds the capability that opens the live authorization if and only if no recovery in the sender's own history already pays the request's withdrawal key |
| JointTheorems.ReuseIsVisible | wallet-core/src/state.rs:457-588 | In every reachable state, for a published request other than one for the capability the wallet shows itself: its capability was spent under this coin's key if and only if a recovery in the wallet's own history pays its withdrawal key |
| Sources.ReachableSourced | wallet-core/src/state.rs:398-447 | In every reachable state each signature of a coin can be traced: the first pays and empowers the wallet that registered the coin, each later one names the capability and the withdrawal key of one published request |
| Lifecycle.HandsOver | wallet/src/cli.rs:1336-1560 | From every reachable state with a living signer, an owner and a newcomer whose policies allow one more step there is a run in which the newcomer asks, the owner signs through a crash and releases, and the newcomer accepts and is an owner like the one before |
| Opening.RegisterRuns | wallet/src/cli.rs:481-525 | Any new wallet can register a coin with a signer that has room, through to an idle wallet whose coin the signer knows |
| Opening.FundRuns | wallet/src/cli.rs:803-990 | Whenever a deposit pays for the policy, a registered wallet can journal the funding, crash, sign its recovery on the rerun and only then hand the transaction out, and is then the coin's first owner |
| Failures.OwnerCanStrand | wallet-core/src/state.rs:457-588 | From every reachable state with an owner, two newcomers and a delay wide enough for three more steps there is a run after which nobody can move the coin |
| Failures.SomeCoinIsStranded | wallet-core/src/state.rs:457-588 | Three new wallets reach a state in which nobody can move the coin |
| Failures.RestartGoesAstray | wallet-core/src/state.rs:232-267 | From every reachable state in which a wallet waits for its first signature there is a run, over a signer restart, after which it has journaled a response under another key |
| Failures.SomeResponseIsStray | wallet-core/src/state.rs:232-267 | New wallets reach a state in which such a response is journaled |
| Restarts.PendingForever | wallet/src/cli.rs:1758-1772 | Once the signer that registered a coin is gone, whatever recovery attempt is pending, signed or not, stays pending over every run, and its wallet never journals an exit or hands out an exit child; the one exception is a completion that was already applied and waits for its save |
| Restarts.WhoGetsFree | wallet/src/cli.rs:1362-1441 | Under a dead key there is a run to nothing pending if and only if the wallet is about to save the completion |
| Restarts.ExitsAlone | wallet/src/cli.rs:1875-2077 | A wallet with nothing pending, for which the exit preparation succeeds on what the chain shows, hands out the child of an armed package in six events, none of them from a signer |
| Progress.LogsOnlyGrow | enclave/src/lib.rs:161-202 | Over any moves, restarts included, every log keeps all its signatures in place |
| JointTheorems.OneSignaturePerAttempt | wallet/src/cli.rs:1362-1441 | In every reachable state a journaled attempt has been signed at most once, and only as the signature right after the wallet's history |
| JointTheorems.CountTestIsExact | wallet-core/src/validation.rs:156-172 | While the signer lives, "one more signature than expected" holds exactly when the signer's cached request is the journaled one, and exactly one of committed and uncommitted holds |
| JointTheorems.CommittedTransferRevalidates | wallet-core/src/state.rs:591-676 | Once signed, a transfer passes re-validation on any chain observation; the journal-mismatch error is unreachable while the signer lives |
| JointTheorems.SignerAnswersPending | enclave/src/lib.rs:161-202 | The living signer always answers the journaled request, and answers without changing anything once it is committed |
| JointTheorems.AtMostOneHolder | wallet-core/src/state.rs:692-774 | No capability is held by two wallets, as current, pending next or incoming |
| JointTheorems.OwnerIsVisible | wallet-core/src/state.rs:784-881 | While the signer lives, read off any history, in a wallet or in a released package, that is as long as the signer's count: some wallet holds the capability that opens the live authorization if and only if the newest recovery pays a key that no earlier one pays |
| JointTheorems.ShownCapabilityIsLive | wallet-core/src/state.rs:692-774 | A wallet that shows a capability with nothing pending shows the live authorization |
| JointTheorems.HistoryIsSigned | wallet-core/src/state.rs:739-765 | Every full history, in a wallet or in a released package, is a prefix of the recoveries the signer signed; a past owner keeps exactly the entry at its own position |
| JointTheorems.HistoriesAgree | client/src/lib.rs:549-596 | Any two full histories of one coin are prefixes of each other |
| JointTheorems.OwnerChainIsExclusive | client/src/lib.rs:849-858 | Over the whole owner chain delays fall by exactly ten per owner, no earlier recovery is final below the newer delay plus ten, and there are at most 6554 signatures |
| JointTheorems.PackageIsAccepted | wallet-core/src/state.rs:784-881 | While the signer lives a released package is accepted by the wallet that requested it exactly when the funding is observed unspent and deep enough and the newest delay clears the larger margin; accepting again returns false and changes nothing |
| JointTheorems.SavedResponseApplies | wallet-core/src/state.rs:692-774 | In every reachable state, for a saved response and any status the signer shows, completing the transfer (or the funding recovery) succeeds if and only if the status names the enclave key the coin was registered with |
| JointTheorems.ExitOnlyAgainstOlder | wallet-core/src/exit.rs:14-52 | Whatever spent the funding output, acceptance means that the spender is exactly one of the recoveries signed for this coin, the wallet's own or an earlier one, and its own if the spend is confirmed; a past owner never passes against a newer one |
| AgreementSteps.ReachableAgrees | wallet/src/cli.rs:481-1560 | Every reachable state of the joint system satisfies the joint invariant between wallets, messages and the signer's log |
| AgreementSigner.SignKeeps | enclave/src/lib.rs:161-202 | Delivering any request ever sent keeps the joint invariant, signed, replayed, refused or signed under a key nobody took up |
| AgreementWallet.UpdateIsGood | wallet-core/src/state.rs:59-881 | Every saved wallet update keeps its wallet in agreement with the log and disturbs no other wallet or message |
| Fitting.ReachableFits | wallet-core/src/state.rs:563-573 | In every reachable state a pending transfer still validates and fits the size limit, and a sent envelope is sealed to its request |
| Handover.BeginIgnoresReuse | wallet-core/src/state.rs:457-588 | `begin_transfer` accepts a spent request exactly when it accepts an unspent one with the same terms |
| Handover.PackageHistoryVerifies | client/src/lib.rs:549-596 | The receiver's history check passes on the package of a living signer at any confirmation count below the newest delay |
| Handover.AcceptAgainIsNoOp | wallet-core/src/state.rs:796-803 | Accepting the same package again returns false and the same state, whatever is observed |
| Handover.SpentIsNotHeld | wallet-core/src/state.rs:692-774 | A wallet never holds a live capability that was spent under its key |
| JointFacts.TransferCompletes | wallet-core/src/state.rs:692-774 | A recorded response that is the log's newest entry completes the transfer, with no chain observation involved |
| JointFacts.FundingCompletes | wallet-core/src/state.rs:269-335 | A recorded response that is the log's newest entry completes the funding recovery |
| Ledger.PrefixVerifies | client/src/lib.rs:579-615 | Any prefix of a good log is a history that passes every recovery and window check at any confirmation count below its newest delay |
| Ledger.LogTxidsAreDistinct | wallet-core/src/exit.rs:31-36 | The recoveries of one log have pairwise distinct transaction ids |
| DriverSafety.ReloadNeverFails | wallet/src/model.rs:33-60 | In every run, in any environment, the file validates on the next load, and no save is refused by its own validation |
| DriverSafety.BroadcastFundingIsSecured | wallet/src/cli.rs:667-793 | Any funding transaction ever handed out, on either backend, is the saved one, and the file holds a recovery of exactly its coin output signed by both keys and the secret it pays to |
| DriverSafety.FundingNeverRegresses | wallet-core/src/state.rs:269-375 | Over any run the saved funding bytes never change, the stage never falls, and a secured recovery and its secret stay |
| DriverSafety.OneEnvelope | wallet/src/cli.rs:1348-1357 | Over any run a wallet's keys, funding output, accepted request and released envelope never change once set |
| DriverSafety.OneExitChild | wallet/src/cli.rs:1995-2077 | Every child ever handed out is the child of the one saved, armed and still valid package |
| DriverSafety.HandedWhenArmed | wallet/src/cli.rs:1899-1942 | Whenever an exit child or a sweep leaves the wallet, its exact bytes are on file at the armed stage |
| DriverSafety.ExitFreezesWallet | wallet/src/cli.rs:1358-1361 | From the first exit journal on the wallet state never changes and nothing is pending; from the first arming on neither does the package |
| DriverSafety.SweepAndFundingNeverCompete | wallet/src/cli.rs:1079-1265 | Saved funding inputs and current sweep sources are disjoint, and every sweep handed out is still journaled or was seen with the configured confirmations |
| Updates.UpdateKeeps | wallet-core/src/state.rs:59-881 | Every wallet update keeps the funding shape, the identity of the coin and the reserved inputs, whatever the outside fed into it |
| Enclave.Signer.Sign | enclave/src/lib.rs:161-202 | Signs or replays as specified, appends exactly one log entry or changes nothing, leaves other coins and all keys alone, keeps the refinement |
| Enclave.Signer.Register | enclave/src/lib.rs:132-152 | Registers or answers as specified within the limit, leaves existing coins and logs alone |
| Enclave.Signer.Handle | enclave/src/lib.rs:124-130 | Every request kind does what its own operation says |
| Enclave.SignRefinesAppend | enclave/src/lib.rs:161-202 | A successful signature replays the newest entry or appends exactly one that explains the new record |
| Enclave.SignAnswersFromLog | enclave/src/lib.rs:161-202 | Which requests succeed, from the log alone: the newest is replayed, one that opens the live commitment is signed, every older one is refused |
| Enclave.RequestsAreDistinct | enclave/src/lib.rs:168-190 | No request is ever signed twice in one log |
| WalletObject.WalletState.RecordSignResponse | wallet-core/src/state.rs:232-267 | Takes the pending operation and puts it back as specified, or reports the error with the state unchanged |
| WalletObject.WalletState.BeginRegistration | wallet-core/src/state.rs:59-86 | Journals one registration, or returns the journaled request again; every refusal leaves the state unchanged |
| WalletObject.WalletState.CompleteRegistration | wallet-core/src/state.rs:90-124 | Turns the journaled registration into a coin holding its capability at the initial handoff; on a bad status nothing moves |
| WalletObject.WalletState.BeginFunding | wallet-core/src/state.rs:127-214 | Journals the built funding transaction together with the recovery attempt for exactly its coin output; every fallible check precedes the change, so an error moves nothing |
| WalletObject.WalletState.CompleteFundingRecovery | wallet-core/src/state.rs:269-335 | Installs the verified recovery, the next capability and its withdrawal secret and raises the stage to recovery-secured in one step, or moves nothing |
| WalletObject.WalletState.MarkFundingBroadcast | wallet-core/src/state.rs:364-375 | Raises the stage only for the id of the saved transaction of a secured funding, and changes no other field |
| WalletObject.WalletState.BeginTransferRequest | wallet-core/src/state.rs:398-447 | Saves one incoming request, or returns the saved one again for the same terms and refuses different ones, the state unchanged |
| WalletObject.WalletState.BeginTransfer | wallet-core/src/state.rs:500-588 | Journals a recovery attempt for the request after the live, history, margin and size checks, the coin unchanged; an error moves nothing |
| WalletObject.WalletState.CompleteTransfer | wallet-core/src/state.rs:692-774 | Releases the envelope with the full history, keeps only the owner's own recovery and gives up the capability in one step, or moves nothing |
| WalletObject.WalletState.AcceptTransfer | wallet-core/src/state.rs:784-881 | Takes the coin over with the saved capability and the whole history and clears the incoming request, returns false on the same package again, or moves nothing |
| WalletObject.Store.Save | wallet/src/store.rs:89-101 | Writes the wallet and keeps both journals on file, exactly when the wallet is consistent and the file loaded; the file written loads again whenever no exit is journaled or the coin's owned recovery is the same |
| WalletObject.Store.SaveNative | wallet/src/store.rs:103-106 | Writes everything exactly when it validates, otherwise nothing; a file that loads stays one that loads |
| Wallet.FundingTransactionIsSafe | wallet-core/src/state.rs:337-362 | A handed-out funding transaction pays the coin output of the saved outpoint and is already covered by a genuine recovery of it |
| Capacity.BeginNeverTooLarge | wallet-core/src/state.rs:563-573 | For every wallet, request, status and observation, `begin_transfer` never fails on the size limit: its other checks leave no history long enough |
| Sending.OwnerMaySend | wallet-core/src/state.rs:500-588 | While the signer lives, an owner's `begin_transfer` succeeds if and only if the request is for its coin and names another capability, the funding is observed unspent and deep enough and the next delay clears the larger margin |
| Wallet.NeverStuckOnSize | wallet-core/src/state.rs:563-573 | After a successful `begin_transfer`, no response and no draws make completion fail on size |
| Client.VerifyRecoveryIsExact | client/src/lib.rs:598-672 | Accepts exactly the recoveries that both keys signed for this funding output, under any valid signatures |
| Client.PrepareThenComplete | client/src/lib.rs:426-547 | Preparing and completing round-trips into a verified recovery exactly when the response is signed under the coin's enclave key |
| Client.VerifyWindowsIsExact | client/src/lib.rs:579-594 | The window loop accepts exactly the histories in which each delay is one step below the previous one and above the confirmations |
| Client.BuildExitChildInPlace | client/src/lib.rs:731-798 | The builder that overwrites a placeholder witness and the output value computes the specified child |
| Client.ExitChildIsExact | client/src/lib.rs:731-798 | Output plus package fee on the final signed bytes equals the amount, no dust, one valid key-path signature |
| Timing.ExclusiveReactionWindow | client/src/lib.rs:549-596 | For any accepted history the final recoveries at a later confirmation count are exactly a suffix, one more each ten blocks |
| Timing.HistoryLengthIsBounded | client/src/lib.rs:549-596 | An accepted history has at most 6554 entries, fewer the more confirmations there are |
| Timing.HistoryTxidsAreDistinct | client/src/lib.rs:579-594 | Recoveries of an accepted history have pairwise distinct transaction ids |
| Validation.PublicHistoryWindow | wallet-core/src/validation.rs:108-139 | A public receipt shows the same reaction window with the margin included |
| Funding.BuildSourceFundingInPlace | wallet-core/src/funding.rs:52-152 | The builder that overwrites placeholder, change and signature computes the specified transaction |
| Funding.SourceFundingIsExact | wallet-core/src/funding.rs:85-152 | Input equals amount plus change plus fee on the final signed bytes, no dust, a valid signature, and the result passes finalized validation |
| Funding.FundingInputsAlwaysValid | wallet-core/src/validation.rs:19-47 | The final input and weight validation never rejects a built funding transaction |
| Funding.BuildSourceSweepInPlace | wallet-core/src/funding.rs:154-273 | Loops, checked sum, sort and in-place signing compute the specified sweep |
| Funding.SweepIsCanonical | wallet-core/src/funding.rs:170-186 | The result depends only on which sources are given, not on their order |
| Funding.AdjacentIsPairwise | wallet-core/src/funding.rs:170-186 | On sorted sources comparing neighbours means pairwise distinct inputs |
| Funding.SweepConserves | wallet-core/src/funding.rs:187-273 | Input sum equals output plus the exact fee on the signed bytes, within 64 bits, and no dust is left |
| Funding.SweepSpendsSourcesOnce | wallet-core/src/funding.rs:187-273 | The sweep spends each given source exactly once, each with a valid signature, and nothing else |
| Funding.SweepInputsAlwaysValid | wallet-core/src/validation.rs:19-47 | The final input and weight validation never rejects a sweep of up to 100 sources |
| Funding.PreparedSweepValidates | wallet-core/src/funding.rs:297-353 | Preparing succeeds exactly when building does, and what it journals validates and spends exactly the given outpoints |
| Exit.PreparedExitIsExact | wallet-core/src/exit.rs:69-117 | A prepared package is final, spends the owned recovery, pays exactly its recorded fee and validates |
| WalletObject.StaysLoadable | wallet-core/src/exit.rs:119-158 | A file with a journaled exit stays valid under any new wallet state that keeps the owned recovery the package was built from |
| Exit.ObservedParentIsAnyGenuineWitness | wallet-core/src/exit.rs:208-222 | An observed parent passes exactly when it is the owned recovery under any valid pair of signatures |
| Transfer.SealThenOpen | wallet-core/src/transfer.rs:245-342 | What was sealed to a request opens with the requested key to the same payload |
| Transfer.OpenBindsRequest | wallet-core/src/transfer.rs:290-342 | A package opens only under the exact request it was sealed to and only with that request's key |
| Transfer.TemplateDominates | client/src/lib.rs:139-158 | The size template is at least as large as the real payload for every request ID, handoff and pair of signatures |
| Transfer.EnvelopeFitsArtifact | wallet-core/src/transfer.rs:218-231 | Every envelope that can be sealed fits the 16 MiB artifact limit |
| Encoding.AadIsInjective | wallet-core/src/transfer.rs:135-153 | Two validated requests with the same associated data are equal in every field and spelling, whatever the parsers accept |
| Encoding.AppendFields | wallet-core/src/transfer.rs:135-153 | Appending field by field yields the specified buffer |
| Encoding.PreimageIsInjective | wallet-core/src/transfer.rs:165-181 | Two envelopes with the same fingerprint preimage are equal, for all string lengths |
| Encoding.FeedFingerprint | wallet-core/src/transfer.rs:165-181 | The hashing loop feeds exactly the specified preimage |
| Encoding.HexRoundTrip | wallet-core/src/transfer.rs:344-350 | Decoding an encoding gives back the bytes |

## Left out

- Network services: HTTP, WebSocket, Noise, attestation, Bitcoin Core and Esplora clients; their answers are event parameters. Core's own funding checks are represented by the finalized-funding validation.
- Cryptographic internals: curve arithmetic, SHA-256, HKDF, AEAD and the encrypted state codec; symbolic constructors stand for them, and random values are assumed not to collide.
- JSON text, address and outpoint parsing: only sizes and canonical spellings are modelled; module Encoding takes the library parsers as arbitrary functions.
- Version numbers and PCR checks, file permissions, the lock file, temporary files, prompts and command-line parsing: one command at a time per wallet and atomic saves are assumed.
- Read-only commands (status, receipts, recovery export, the exit dry run) and the already-registered and already-accepted reports: they save nothing and send nothing that changes state.
- Dishonest chains, senders and requesters: wallets only receive packages that some wallet released and sign only published requests; chain observations are unconstrained where no result says otherwise.
- Exit and sweep journals are values whose stage the driver replaces; the two methods that update a stage in place have no object of their own, so aliasing is not modelled there.
- The command drivers are a step function instead of methods, because a crash may fall between any two events; the order of reads, saves and effects is the source's.
- The sort by value and the truncation of sweep inputs are functions over sequences; update in place is not modelled there.
- Error texts: errors that no caller tells apart share one constructor.
