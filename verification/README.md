# Verified model of the UOMI node's protocol and ledger state machines

This project models, in Dafny, six parts of the UOMI node that keep state over unbounded runs, and proves what
they keep, what they compute and where a plausible property fails.

| files | part of the node |
|---|---|
| `Sessions`, `SessionManager`, `SessionSafety`, `SessionLocality`, `SessionReplay`, `SessionProgress`, `SessionStart`, `SessionSigner`, `SessionEvents` | the threshold-signature session manager: one node's view of FROST key generation and of two-round signing (section 5 of RFC 9591), with early-message buffers, expiry and session re-creation |
| `PeerMapper`, `EcdsaManager`, `DkgStorage` | its peer and identifier tables, its ECDSA phases and their buffers, its package stores and file names |
| `IpfsPins` | the pin lifecycle: user pins, validator pins, the once-per-block inherent and its check |
| `AiModels`, `OffchainWorker` | the version vote, the delayed switch of model names, the worker's request choice, semaphore and time budget |
| `BaseFee` | the base fee controller |
| `UnifiedAccounts` | the two-way account mapping with its re-entrant account-killed hook |
| `TssPallet` | validator ids and session ids on chain |

Each imperative part is a class whose methods are proved equal to functions on a value state; the properties are
then lemmas about every run of those functions. `dafny verify dfyconfig.toml` checks the whole project.

How the environment is represented:

- Cryptographic libraries are known only by which calls succeed and which bytes parse (`Sessions.Crypto`,
  `Ecdsa.Library`, `UnifiedAccounts.Config.recover`). These are arbitrary, results hold for all of them, and every
  event of a run comes with its own answers.
- The order in which a hash map is traversed is arbitrary and may differ at every event (`PeerMapping.Orders`).
- Clocks, block numbers, block weights, validator sets and balances are parameters.
- A panic is an outcome (`Aborted`), not an excluded input. So is a call chain that is still nesting when a given
  call depth is used up (`TooDeep`); the depth is a parameter of every event, so every result about runs covers
  every depth.

Results in which the code does less than one might expect:

- The replay of buffered round-2 messages never drains the buffer and calls itself again through the completion
  step. `SessionReplay.CompletionReturnsIff` gives the exact condition under which it returns. One usable early
  message is enough to prevent it for good: as long as the session is neither forgotten nor created again and nobody
  changes peer or id, no run reaches round 2 (`SessionReplay.EarlyRound2NeverFinishes`), and the run that would have
  finished does not return (`SessionProgress.EarlyRound2Stops`).
- Keys are stored under the node's identifier, its validator id if it has one, and read under its position in the
  list. After an orderly key generation the signing session starts if and only if the two agree; otherwise the node
  panics (`SessionProgress.SigningStartsIffIdsAgree`).
- Mixing validator ids with positions can give two participants of a session one identifier; all of them are entered
  if and only if that does not happen (`PeerMapping.EveryoneIsEnteredIff`).
- Expiry leaves packages behind. A session that is created again skips round 1 if and only if enough old packages are
  left (`SessionProgress.RecreatedSkipsRound1Iff`).
- The check of the pin inherent accepts lists with repeated entries (`IpfsPins.RepeatsAreAccepted`). An accepted list
  is exactly the computed one if and only if nothing repeats (`IpfsPins.AcceptedIsExactIffNoRepeats`,
  `IpfsPins.InherentClearsExpired`), and the check enforces that if and only if neither computed list has two entries
  (`IpfsPins.CheckIsExactIff`).
- After any history of votes, a request keeps its model name for 100 blocks if and only if the name was already in
  effect or no two versions disagree about it (`AiModels.StableIff`, `AiModels.StableIffNotRenamable`). Of the released
  models, two can change (`LocalNames.ReleasedModelsStableIff`). The window cannot be longer (`AiModels.WindowIsTight`).
- With the constants of the runtime the next base fee is monotone in block weight if and only if the elasticity is
  zero, or the fee is at or above the floor price and either scales by the whole elasticity or by no coefficient at
  all (`BaseFee.MonotoneIff`).
- Mapped accounts exist in every run if and only if a claim costs something
  (`UnifiedAccounts.MappedAccountsExistIffFee`).
- A worker that panics keeps the semaphore closed for good (`OffchainWorker.CrashClosesForever`).
- An accepted percentage gives a usable threshold if and only if percentage times participants reaches 100
  (`TssPallet.AcceptedThresholdsAreUsable`).

Where the code and its comments disagree, the model follows the code. Creating a session again overwrites its data
although the log says it is refused. Cleaning up an expired session, meant to remove it from all session data
structures, leaves its packages, key files, index table and ECDSA phases in place. A mapped account, said never to
change its mapping, loses it when the account is closed.

## Model

| member | source | states |
|---|---|---|
| SessionSafety.KeyGeneratedIsEarned | client/tss/src/lib.rs:1472-1831 | In every run (any order, duplicates, re-creation, expiry, replay) a session in `KeyGenerated` has a stored round-2 secret for some n, packages of at least n - 1 distinct identifiers in round 1 and in round 2, and both key files |
| SessionSafety.SignatureIsEarned | client/tss/src/lib.rs:2100-2503 | In every run in which no creation of the session asks for fewer than t signers, a generated signature means a stored signing package of at least t distinct commitments and shares from at least t distinct identifiers |
| SessionSafety.TablesAlwaysAgree | client/tss/src/lib.rs:2723-2772 | In every run session data and timestamps have the same keys, states and participants exist only for those keys, 1 <= t <= n, and a cleanup leaves exactly the sessions that are not older than the timeout |
| SessionSafety.RunsAreSound | client/tss/src/lib.rs:2774-2829 | The joint invariant behind the three results above holds after every run from the initial state |
| SessionSafety.StepKeeps | client/tss/src/lib.rs:2804-2882 | Every single event keeps the joint invariant of every session |
| SessionSafety.CompletionKeeps | client/tss/src/lib.rs:1751-1831 | The mutually recursive completion and replay of round 2 keep the invariant at every call depth |
| SessionSafety.AddSessionKeeps | client/tss/src/lib.rs:620-670 | Adding a session, also over an existing one, keeps the invariant |
| SessionSafety.CleanupKeeps | client/tss/src/lib.rs:2738-2771 | Forgetting the expired sessions keeps the invariant of all sessions |
| SessionLocality.SessionsAreIsolated | client/tss/src/lib.rs:693-954 | Whatever arrives for one session leaves everything held for any other session unchanged: data, clock, states, buffer, participants, packages, key files, ECDSA phases and buffers |
| SessionLocality.StepIsLocal | client/tss/src/lib.rs:2804-2829 | The same for all other sessions at once; the node's identity, peers and validator ids stay too |
| SessionLocality.CompletionIsLocal | client/tss/src/lib.rs:1751-1831 | The recursion through completion and replay touches one session only, at every call depth |
| SessionReplay.CompletionReturnsIff | client/tss/src/lib.rs:1751-1760 | In round 2, completion exceeds every call depth if the first effective buffered message is one that it would store; otherwise it returns or panics, with the same result at every positive depth |
| SessionReplay.ReplayNeverReturns | client/tss/src/lib.rs:2069-2098 | With such a message buffered, the replay exceeds every call depth |
| SessionReplay.ReplayReturns | client/tss/src/lib.rs:2069-2098 | Without one, the replay changes nothing, or panics if an effective message comes from a peer whose lookup panics |
| SessionReplay.IgnoredIsHandled | client/tss/src/lib.rs:1676-1749 | The three possible effects of a buffered round-2 message, decided before the call, are what the handler does |
| SessionReplay.VerdictOfLonger | client/tss/src/lib.rs:2076-2096 | A later buffered message matters only if all earlier ones are ignored |
| SessionReplay.VerdictIsFate | client/tss/src/lib.rs:411-448 | Which buffered messages are effective does not depend on any traversal order: it follows from the sender's announced account, its validator id and the participants |
| SessionReplay.EarlyRound2Blocks | client/tss/src/lib.rs:693-954 | A usable round-2 message that arrives before round 2 is buffered, and the session is then blocked |
| SessionReplay.BlockedNeverCompletes | client/tss/src/lib.rs:1751-1831 | In a blocked session completion exceeds every call depth, in every traversal order |
| SessionReplay.BlockedStart | client/tss/src/lib.rs:1565-1674 | In a blocked session the start of round 2 exceeds every call depth, or the library refuses the packages and the session has failed |
| SessionReplay.BlockedForever | client/tss/src/lib.rs:1472-1831 | Through every run without a clean-up or new creation of the session and without changes of peers or ids, in which all handlers return, a blocked session stays blocked and short of round 2 |
| SessionReplay.EarlyRound2NeverFinishes | client/tss/src/lib.rs:1676-1749 | Together: no such run after a usable early round-2 message ends with a generated key |
| SessionProgress.HonestKeyGeneration | client/tss/src/lib.rs:1472-1831 | After the round-1 packages and then the round-2 packages of all n - 1 others, in any order within a round, and with the library accepting them, the node is in `KeyGenerated` and has written exactly its two key files |
| SessionProgress.Round1Fills | client/tss/src/lib.rs:1472-1563 | Fewer than n - 1 round-1 packages fill the table and change nothing else |
| SessionProgress.Round1Completes | client/tss/src/lib.rs:1537-1674 | The (n - 1)-th round-1 package starts round 2 with exactly the collected packages |
| SessionProgress.Round2Fills | client/tss/src/lib.rs:1676-1790 | Fewer than n - 1 round-2 packages fill the table and change nothing else |
| SessionProgress.Round2Completes | client/tss/src/lib.rs:1751-1831 | The (n - 1)-th round-2 package leads to a generated key if the library accepts the collected packages, and to failure if it does not |
| SessionProgress.CreationPrepares | client/tss/src/lib.rs:2831-2845 | Creating a session of which nothing is known yet establishes the start state of `HonestKeyGeneration` |
| SessionProgress.EarlyRound2Stops | client/tss/src/lib.rs:1472-1674 | The orderly first round, but with a usable round-2 message ahead of it, does not return |
| SessionStart.AnySplitGenerates | client/tss/src/lib.rs:693-743 | However the round-1 packages of the others are split around the creation of the session, with the round-2 packages behind them the node ends in `KeyGenerated` with the tables and key files of an orderly run |
| SessionStart.EarlyPackagesCount | client/tss/src/lib.rs:1935-1965 | Packages that came before their session are in the table after its creation, exactly they; with fewer than n - 1 the session is in round 1, with all of them in round 2 |
| SessionStart.EarlyPackagesWait | client/tss/src/lib.rs:704-716 | Round-1 messages for an unknown session wait in order of arrival and change nothing else |
| SessionStart.ReplayFills | client/tss/src/lib.rs:1940-1962 | The replay stores every waiting package and starts round 2 with the (n - 1)-th |
| SessionStart.VerifyingAgain | client/tss/src/lib.rs:1537-1563 | Verifying round 1 once more, as the creation does, changes nothing |
| SessionStart.LatePackagesContinue | client/tss/src/lib.rs:1472-1563 | Later packages continue where the early ones have brought the session |
| SessionProgress.CollectedAt | client/tss/src/lib.rs:1508-1513 | The collected table has exactly the senders' identifiers, each with its sender's bytes |
| SessionProgress.RecreatedSkipsRound1Iff | client/tss/src/lib.rs:2723-2772 | A session created again after its clean-up is in round 2 at once if and only if at least n - 1 old round-1 packages are left, provided the library takes them |
| SessionProgress.StartPrepares | client/tss/src/lib.rs:1834-1968 | The same for the start of key generation alone |
| SessionProgress.HonestSigning | client/tss/src/lib.rs:2100-2503 | After commitments of t participants and then shares of t participants, the coordinator has a signature if the library can aggregate exactly these, and a failed session if it cannot |
| SessionProgress.SigningCreationPrepares | client/tss/src/lib.rs:2863-2877 | Creating a signing session returns if and only if a key file is there under the node's last position plus one; for the coordinator the start state of `HonestSigning` follows |
| SessionProgress.SigningStartsIffIdsAgree | client/tss/src/lib.rs:1970-2067 | After an orderly key generation without older key files, the signing session of the same id starts if and only if the node's identifier is its position plus one |
| SessionSigner.ParticipantAnswers | client/tss/src/lib.rs:1970-2369 | A participant from the creation of the session to its answer: with its key files, a package in time leads to a completed second round if and only if it has enough commitments and the coordinator's peer is known |
| SessionSigner.PackageIsAnswered | client/tss/src/lib.rs:2309-2368 | With key package and nonces, a package of at least the key's minimum of commitments is answered and a smaller one is not |
| SessionSigner.PackagePanicsIff | client/tss/src/lib.rs:2294-2319 | The handler panics exactly if the lookup does, the key file is missing or unreadable, or a large enough package cannot be signed |
| SessionSigner.PackageIsRefused | client/tss/src/lib.rs:2269-2300 | Refused packages leave the session in the beginning of round 2 |
| SessionSigner.CreationCommits | client/tss/src/lib.rs:2009-2066 | After the creation data, clock, numbering and nonces are recorded, and round 1 is completed if and only if the coordinator's peer is known |
| SessionSigner.IdentifierWhenSigning | client/tss/src/lib.rs:411-448 | Among distinct participants a node without a validator id has its position as identifier; a validator id takes precedence, 0 panics |
| SessionSigner.ByPositionIs | client/tss/src/lib.rs:1986-1992 | Signing numbers the participants by position from 1, and nobody else |
| SessionEvents.LateMessagesAreDropped | client/tss/src/lib.rs:599-607 | Two hours after its creation a session ignores every message |
| SessionEvents.UnknownSession | client/tss/src/lib.rs:703-882 | Of messages for an unknown session only round-1 packages are kept, behind those already waiting |
| SessionEvents.StrangersWait | client/tss/src/lib.rs:728-737 | A round-1 package of an unidentified sender waits |
| SessionEvents.StoredAhead | client/tss/src/lib.rs:1513-1527 | Before the own first round a package is stored under its sender and nothing else happens |
| SessionEvents.CommitmentIsOnlyStored | client/tss/src/lib.rs:2134-2152 | A commitment after the package was sent, or to a node that does not coordinate, is stored and nothing else happens |
| SessionEvents.CoordinatorReturnsIff | client/tss/src/lib.rs:2155-2214 | The coordinator returns if and only if every commitment it holds, the new one included, can be read |
| SessionEvents.ShareIsRefused | client/tss/src/lib.rs:2377-2410 | Refused shares are not stored, but begin round 3 |
| SessionEvents.AggregationPanicsIff | client/tss/src/lib.rs:2445-2478 | Aggregating panics exactly if the lookup does or the key file or the package is missing |
| SessionEvents.CompletionWaits | client/tss/src/lib.rs:1760-1784 | Without secret, packages or identifier nothing is finished |
| SessionEvents.AnnouncedIsKnown | client/tss/src/lib.rs:2879-2882 | Once its id and its peer are announced, in either order, a validator's peer has that identifier in every session and traversal order |
| SessionEvents.CleanupPerSession | client/tss/src/lib.rs:2723-2772 | A clean-up forgets six tables of each session older than two hours, keeps its packages, key files, indices and ECDSA phases, and leaves every other session as it is |
| SessionEvents.CreationRefused | client/tss/src/lib.rs:635-652 | Unusable numbers are refused without a trace |
| SessionEvents.CreationRecords | client/tss/src/lib.rs:654-670 | Otherwise data, clock and participants are recorded, also if the node does not take part or cannot start |
| SessionEvents.ReshareRecords | client/tss/src/lib.rs:2847-2861 | A reshare session records its data and opens its ECDSA phase for a participant, and does nothing else |
| SessionEvents.KeygenPhaseOpens | client/tss/src/lib.rs:2505-2534 | With a key generation its ECDSA phase is opened anew, if the library can, and no other is touched |
| SessionEvents.OnlinePhaseOpens | client/tss/src/lib.rs:2660-2720 | With a signing session its online phase is opened, if the offline output is there and the library can |
| SessionEvents.ReadyPhaseOpens | client/tss/src/lib.rs:2616-2658 | The offline phase likewise |
| SessionEvents.EcdsaMessageFollows | client/tss/src/lib.rs:874-952 | A message reaches its phase behind the buffered ones, or waits behind them; a node without an index ignores it |
| SessionProgress.LastPositionIs | client/tss/src/lib.rs:1986-1999 | The search finds the last occurrence, or nothing exactly if there is none |
| SessionProgress.CommitmentsArrive | client/tss/src/lib.rs:2100-2214 | Commitments fill the table until the t-th, which stores the signing package of exactly the collected ones |
| SessionProgress.SharesFill | client/tss/src/lib.rs:2371-2443 | Fewer than t shares fill the table |
| SessionProgress.SharesComplete | client/tss/src/lib.rs:2371-2503 | The t-th share leads to the aggregation of exactly the collected shares |
| SessionManagement.SessionManager.constructor | client/tss/src/lib.rs:557-591 | A new manager is in the initial state of every run |
| SessionManagement.SessionManager.TryToComplete | client/tss/src/lib.rs:1760-1830 | Refines the third part: needs the round-2 secret and n - 1 packages, writes both key files on success, fails the session otherwise |
| SessionManagement.SessionManager.WriteKeys | client/tss/src/lib.rs:1790-1805 | Both key files are written under the node's identifier |
| SessionManagement.SessionManager.DkgVerifyAndComplete | client/tss/src/lib.rs:1751-1831 | Refines replay followed by completion |
| SessionManagement.SessionManager.DkgProcessBufferForRound2 | client/tss/src/lib.rs:2069-2098 | The loop over the cloned buffer refines the recursive replay, including where it stops |
| SessionManagement.SessionManager.DkgHandleRound2Message | client/tss/src/lib.rs:1676-1749 | Refines the round-2 handler with its refusals in order |
| SessionManagement.SessionManager.DkgVerifyAndStartRound2 | client/tss/src/lib.rs:1565-1674 | Refines the start of round 2 |
| SessionManagement.SessionManager.DkgVerificationToCompleteRound1 | client/tss/src/lib.rs:1537-1563 | Refines the decision whether round 1 is complete |
| SessionManagement.SessionManager.DkgHandleRound1Message | client/tss/src/lib.rs:1472-1535 | Refines the round-1 handler |
| SessionManagement.SessionManager.DkgProcessBufferForRound1 | client/tss/src/lib.rs:1935-1962 | The loop over the buffered round-1 messages refines the recursive replay |
| SessionManagement.SessionManager.DkgHandleSessionCreated | client/tss/src/lib.rs:1834-1968 | Refines the start of key generation |
| SessionManagement.SessionManager.AddSessionData | client/tss/src/lib.rs:620-670 | Refines the addition of a session, with its parameter errors and without a partial update on error |
| SessionManagement.SessionManager.AddAndInitializeDkgSession | client/tss/src/lib.rs:2831-2845 | Refines the creation of a key-generation session |
| SessionManagement.SessionManager.AddAndInitializeReshareSession | client/tss/src/lib.rs:2847-2861 | Refines the creation of a reshare session |
| SessionManagement.SessionManager.Enumerate | client/tss/src/lib.rs:1978-1999 | The loop numbers participants by position and finds the node's last position |
| SessionManagement.SessionManager.SigningHandleSessionCreated | client/tss/src/lib.rs:1970-2067 | Refines the start of signing |
| SessionManagement.SessionManager.StartFirstRound | client/tss/src/lib.rs:2014-2067 | Panics without the key file, does nothing with an unreadable one, and otherwise sends the commitment |
| SessionManagement.SessionManager.SendCommitment | client/tss/src/lib.rs:2022-2066 | Stores the nonces; round 1 counts as completed only if the coordinator's peer is known |
| SessionManagement.SessionManager.AddAndInitializeSigningSession | client/tss/src/lib.rs:2863-2877 | Refines the creation of a signing session |
| SessionManagement.SessionManager.SigningVerificationToCompleteRound1 | client/tss/src/lib.rs:2155-2214 | Refines the coordinator's packaging step |
| SessionManagement.SessionManager.SigningHandleCommitment | client/tss/src/lib.rs:2100-2153 | Refines the commitment handler |
| SessionManagement.SessionManager.SigningHandleSigningPackage | client/tss/src/lib.rs:2259-2369 | Refines the participant's second round |
| SessionManagement.SessionManager.SigningHandleSignatureShare | client/tss/src/lib.rs:2371-2443 | Refines the share handler |
| SessionManagement.SessionManager.AggregateShares | client/tss/src/lib.rs:2444-2503 | Refines the aggregation |
| SessionManagement.SessionManager.HandleGossipMessage | client/tss/src/lib.rs:693-954 | Refines the dispatch of a gossip message, with what is buffered and what is dropped |
| SessionManagement.SessionManager.HandleEcdsaMessage | client/tss/src/lib.rs:874-952 | The buffer is replayed before the message is handed on; nothing happens for a node without an index or for a reshare message |
| SessionManagement.SessionManager.CleanupExpiredSessions | client/tss/src/lib.rs:2723-2772 | The two loops remove exactly the sessions older than the timeout, from six tables and no others |
| SessionManagement.SessionManager.Forget | client/tss/src/lib.rs:2738-2771 | One session leaves the six tables |
| PeerMapping.PeerMapper.constructor | client/tss/src/lib.rs:300-309 | All tables start empty |
| PeerMapping.PeerMapper.AddPeer | client/tss/src/lib.rs:482-485 | Records one peer's account |
| PeerMapping.PeerMapper.SetValidatorId | client/tss/src/lib.rs:507-512 | Records one account's validator id |
| PeerMapping.PeerMapper.CreateSession | client/tss/src/lib.rs:451-480 | The loop builds both tables as the recursive definition does, or panics exactly when that has no value |
| PeerMapping.PeerMapper.AddParticipant | client/tss/src/lib.rs:462-476 | One participant is entered by validator id and by position |
| PeerMapping.PeerMapper.GetPeerFromIndex | client/tss/src/lib.rs:342-363 | Finds the peer of an index, in any traversal order |
| PeerMapping.PeerMapper.GetIndexFromPeer | client/tss/src/lib.rs:378-408 | Finds the index of a peer, in any traversal order |
| PeerMapping.PeerMapper.GetIdentifierFromAccount | client/tss/src/lib.rs:411-448 | Finds an account's identifier, reports it missing or panics |
| PeerMapping.PeerMapper.GetIdentifierFromPeer | client/tss/src/lib.rs:365-376 | The same for a peer |
| PeerMapping.IndicesAndPeersInvert | client/tss/src/lib.rs:342-408 | For a session created once with distinct participants and one announced peer each, peer-of-index and index-of-peer invert each other onto 1..n, in any traversal order |
| PeerMapping.LocalPartyIdMatches | client/tss/src/lib.rs:2505-2534 | The node's own index is the party id under which its ECDSA key generation is created |
| PeerMapping.IndexTableOf | client/tss/src/lib.rs:458-476 | The index table of a new session numbers the participants by position |
| PeerMapping.CreationSucceedsIff | client/tss/src/lib.rs:462-476 | A session can be created if and only if every number, validator id or else position, is from 1 to 65535 and the positions fit |
| PeerMapping.IdentifierTableOf | client/tss/src/lib.rs:462-476 | The identifier table of a new session has under each number the last participant with it, and nothing else |
| PeerMapping.EveryoneIsEnteredIff | client/tss/src/lib.rs:462-476 | All distinct participants are in the table if and only if their numbers are distinct |
| PeerMapping.IdentifiersAreFound | client/tss/src/lib.rs:365-448 | Then every lookup of a participant, by account or peer and in any traversal order, gives its number |
| PeerMapping.AbortsForGood | client/tss/src/lib.rs:451-480 | A participant without a usable identifier makes the creation panic, whatever follows it |
| PeerMapping.FirstWithFinds | client/tss/src/lib.rs:315-320 | A search over a table finds an entry with the value exactly when there is one |
| Ecdsa.Manager.constructor | client/tss/src/ecdsa.rs:39-50 | No phases and no buffers |
| Ecdsa.Manager.AddPhase | client/tss/src/ecdsa.rs:52-137 | A phase exists from then on exactly if the library could create it |
| Ecdsa.Manager.HandleMessage | client/tss/src/ecdsa.rs:164-226 | A message goes to its phase or, without one, to its buffer; reshare messages are dropped |
| Ecdsa.Manager.HandleBuffer | client/tss/src/ecdsa.rs:228-318 | The short-circuiting replay over a copy of the buffer: delivered in order up to the first refusal, the buffer cleared only if nothing was refused, the head pushed again if there is no phase |
| Ecdsa.EarlyMessagesAreKept | client/tss/src/ecdsa.rs:164-318 | In every run of key generation, sign and sign-online, the messages that came before their phase are exactly those in successful replays and those still buffered, first occurrences in arrival order, and no repeated arrival is lost |
| Ecdsa.StepAccounts | client/tss/src/ecdsa.rs:164-318 | Every event keeps that account |
| Ecdsa.DeliverIsInOrder | client/tss/src/ecdsa.rs:232-236 | A replay feeds a prefix of the buffer to the phase, in order, ending at the first refused message |
| Ecdsa.ReplayedFirst | client/tss/src/ecdsa.rs:164-318 | A phase gets the buffered messages, up to the first refused, before a new one, and the buffer empties if and only if none is refused; without a phase the new one waits behind the others, of which the first is repeated |
| Ecdsa.HandleSucceedsIff | client/tss/src/ecdsa.rs:171-183 | A message succeeds if and only if its phase exists and accepts it |
| Ecdsa.ReshareBuffersStayEmpty | client/tss/src/ecdsa.rs:327-340 | Reshare messages are never buffered, in any run |
| Ecdsa.SlotsAreIndependent | client/tss/src/ecdsa.rs:26-36 | An event for one phase of one session changes no other phase or buffer |
| FileNames.FilenamesAreInjective | client/tss/src/dkghelpers.rs:48-83 | Equal file names mean equal session, equal storage type and, where the type needs one, equal digest |
| FileNames.DecimalReadsBack | client/tss/src/dkghelpers.rs:54-82 | The decimal rendering of a session id reads back and has no slash |
| FileNames.SuffixShowsKind | client/tss/src/dkghelpers.rs:54-82 | The part after the session id determines the storage type |
| FileNames.SuffixShowsDigest | client/tss/src/dkghelpers.rs:54-82 | and the digest |
| DkgStorage.MemoryStorage.constructor | client/tss/src/dkghelpers.rs:258-267 | Empty |
| DkgStorage.MemoryStorage.StoreData | client/tss/src/dkghelpers.rs:435-444 | Stores one value under session and type and touches no table |
| DkgStorage.MemoryStorage.StoreFor | client/tss/src/dkghelpers.rs:309-339 | Tables named by file names behave as tables per session: storing a package changes one entry of one table of one session |
| DkgStorage.MemoryStorage.FetchFor | client/tss/src/dkghelpers.rs:269-307 | The loop returns the whole table, or nothing if one entry does not parse |
| DkgStorage.TableNamesDiffer | client/tss/src/dkghelpers.rs:309-411 | Two sessions never share a table |
| DkgStorage.FileStorage.constructor | client/tss/src/dkghelpers.rs:250-256 | No key files |
| DkgStorage.FileStorage.StoreFile | client/tss/src/dkghelpers.rs:525-535 | Files named by digest behave as a map keyed by session, kind and identifier, given an injective digest |
| DkgStorage.FileStorage.ReadFile | client/tss/src/dkghelpers.rs:537-545 | Reads back what was stored under the same session, kind and identifier |
| IpfsPins.Pallet.constructor | pallets/ipfs/src/lib.rs:212-236 | Empty storage |
| IpfsPins.Pallet.PinAgentCall | pallets/ipfs/src/lib.rs:304-347 | Refines the agent pin, refused exactly for the agent's present CID |
| IpfsPins.Pallet.PinFileCall | pallets/ipfs/src/lib.rs:351-387 | Refines the file pin, refused for an empty CID or a short duration |
| IpfsPins.Pallet.SubmitProcessedPins | pallets/ipfs/src/lib.rs:391-423 | The two loops add and remove one validator's pins |
| IpfsPins.Pallet.IsMajorityPinned | pallets/ipfs/src/lib.rs:796-834 | The counting loop decides whether at least n/2 + 1 of n validators (one if n <= 3) pin the CID |
| IpfsPins.Pallet.IpfsOperations | pallets/ipfs/src/lib.rs:676-705 | The loop lists exactly the CIDs that become usable and exactly the expired ones, each once |
| IpfsPins.Pallet.CheckInherent | pallets/ipfs/src/lib.rs:495-544 | Decides: equal lengths and every proposed entry computed |
| IpfsPins.Pallet.SetInherentData | pallets/ipfs/src/lib.rs:427-465 | Once per block, marks the usable and then removes the expired |
| IpfsPins.Pallet.MarkUsable | pallets/ipfs/src/lib.rs:445-452 | The loop marks every listed CID, tracked or not |
| IpfsPins.Pallet.RemoveExpired | pallets/ipfs/src/lib.rs:455-460 | The loop drops every listed CID and all its pins |
| IpfsPins.Pallet.OnFinalize | pallets/ipfs/src/lib.rs:254-258 | A block without inherent data is refused; the flag is taken down |
| IpfsPins.PinFileExtends | pallets/ipfs/src/lib.rs:351-387 | A file pin needs a name and a day; it extends the expiry to the asked block, never shortens it and keeps the mark; no other file is touched |
| IpfsPins.PinAgentReplaces | pallets/ipfs/src/lib.rs:304-347 | A new agent file is persistent and unmarked, and the replaced one expires in a day |
| IpfsPins.ReportSetsPins | pallets/ipfs/src/storages.rs:4-11 | After a report the validator holds what it saved or held before and did not remove; nobody else's pins change |
| IpfsPins.AuthorIsAccepted | pallets/ipfs/src/lib.rs:474-544 | The check on the parent state accepts what the author computes for the next block |
| IpfsPins.AcceptedIsExactIffNoRepeats | pallets/ipfs/src/lib.rs:495-544 | What the check accepts is exactly the computed set if and only if no entry repeats, by the pigeonhole principle |
| IpfsPins.RepeatsAreAccepted | pallets/ipfs/src/lib.rs:512-538 | A list of the right length that repeats one computed entry passes the check; with two expired entries it leaves one tracked |
| IpfsPins.CheckIsExactIff | pallets/ipfs/src/lib.rs:495-544 | The check admits nothing but the computed sets if and only if neither has two entries |
| IpfsPins.AcceptedUsableIsTracked | pallets/ipfs/src/lib.rs:495-544 | Accepted usable CIDs are tracked and have a majority in the parent state |
| IpfsPins.InherentClearsExpired | pallets/ipfs/src/lib.rs:427-465 | After an accepted inherent no tracked CID is expired, if and only if the removals do not repeat |
| IpfsPins.InherentPerCid | pallets/ipfs/src/lib.rs:445-460 | Per CID: gone with its pins if removed, marked with the block and otherwise as before if listed as usable, untouched if neither |
| IpfsPins.MajorityBecomesReadable | pallets/ipfs/src/lib.rs:445-452 | A tracked, unmarked, unexpired file with a majority in the parent state is marked with the block and served right after the inherent, if the usable list does not repeat |
| IpfsPins.RemovedIsExpired | pallets/ipfs/src/lib.rs:690-695 | Only files past their expiry block are removed |
| IpfsPins.KeptUntilExpiry | pallets/ipfs/src/lib.rs:676-705 | A tracked file stays tracked through its expiry block |
| IpfsPins.MarkStays | pallets/ipfs/src/lib.rs:697-702 | No inherent changes a mark |
| IpfsPins.ReadableWhile | pallets/ipfs/src/lib.rs:764-783 | A file is served from the block of its mark through its expiry |
| IpfsPins.CallsKeepLive | pallets/ipfs/src/lib.rs:304-423 | No sequence of calls within the block brings back an expired CID or a mark in the future |
| IpfsPins.CallsKeepMarks | pallets/ipfs/src/lib.rs:304-423 | No sequence of calls marks a CID as usable |
| IpfsPins.UsableHadMajority | pallets/ipfs/src/lib.rs:676-705 | In every chain of accepted blocks a CID marked at block u was pinned by the required majority of that block's validators in u's parent state |
| IpfsPins.EndOfBlock | pallets/ipfs/src/lib.rs:764-783 | At the end of every block whose accepted removals do not repeat, every tracked CID is persistent or unexpired, and it can be read exactly when it is marked |
| IpfsPins.MajorityIsStrict | pallets/ipfs/src/lib.rs:796-834 | The majority is exactly more than half of more than three validators, and anyone of at most three |
| AiModels.Pallet.constructor | pallets/uomi-engine/src/aimodelscalc.rs:77-118 | Empty storage over a given table of names |
| AiModels.Pallet.StoreNodesVersions | pallets/uomi-engine/src/lib.rs:489-517 | Accepts an active validator's changed version and nothing else |
| AiModels.Pallet.GetMostUsedVersion | pallets/uomi-engine/src/aimodelscalc.rs:52-75 | The version with the most nodes, the smallest among equals, the pallet's own without any report |
| AiModels.Pallet.CountVersions | pallets/uomi-engine/src/aimodelscalc.rs:58-62 | The counting loop gives every reported version its number of nodes |
| AiModels.Pallet.Run | pallets/uomi-engine/src/aimodelscalc.rs:11-38 | Exactly the renames of models whose name differs and whose last switch is in effect; an error for an unknown version |
| AiModels.Pallet.StoreOperations | pallets/uomi-engine/src/aimodelscalc.rs:40-46 | The loop overwrites exactly the listed models |
| AiModels.Pallet.Inherent | pallets/uomi-engine/src/lib.rs:429-451 | One block's effect on the model table |
| AiModels.MostUsedIsUnique | pallets/uomi-engine/src/aimodelscalc.rs:64-72 | The vote has one winner |
| AiModels.QuietWhilePending | pallets/uomi-engine/src/aimodelscalc.rs:29-31 | Nothing happens to a model before its last switch takes effect, whatever wins the votes |
| AiModels.ChangesAreApart | pallets/uomi-engine/src/aimodelscalc.rs:23-35 | Two renames of one model are at least 100 blocks apart |
| AiModels.NameIsKept | pallets/uomi-engine/src/aimodelscalc.rs:33-34 | For 100 blocks an effective name is current or kept as the previous name of a later switch |
| AiModels.RequestNameIsStable | pallets/uomi-engine/src/offchain.rs:430-435 | A request accepted when its model's name is in effect resolves to that name for 100 blocks, whatever versions nodes report |
| AiModels.StableIff | pallets/uomi-engine/src/offchain.rs:430-435 | After every history of votes a request is served by one name for 100 blocks under all further votes if and only if the name is in effect at the request's block or no version has another name for the model |
| AiModels.StableIffNotRenamable | pallets/uomi-engine/src/offchain.rs:430-435 | The same condition by the name table alone: the name is in effect or no two versions disagree |
| AiModels.UnstableWhilePending | pallets/uomi-engine/src/aimodelscalc.rs:23-35 | While a switch is pending, one vote for another name changes the name of an earlier request |
| AiModels.OnlyNameStays | pallets/uomi-engine/src/aimodelscalc.rs:25-27 | A model for which no version has another name never changes |
| AiModels.AlwaysAnnounced | pallets/uomi-engine/src/aimodelscalc.rs:23-35 | After every history a switch is announced at most 100 blocks ahead, to another name, and to one that some version has |
| AiModels.RenamedOnTime | pallets/uomi-engine/src/aimodelscalc.rs:23-35 | A pending model is renamed in the very block its switch takes effect, if the vote then asks for another name |
| AiModels.WindowIsTight | pallets/uomi-engine/src/offchain.rs:430-435 | Two votes at the wrong time change the name after 101 blocks |
| LocalNames.ReleasedRenames | pallets/uomi-engine/src/aimodelscalc.rs:77-118 | In the released table two versions disagree about models 1 and 2 and no others |
| LocalNames.ReleasedModelsStableIff | pallets/uomi-engine/src/aimodelscalc.rs:77-118 | With the released table, after every history, models 1 and 2 are stable if and only if their name is in effect, and all others always |
| OffchainWorker.FindRequest | pallets/uomi-engine/src/offchain.rs:157-197 | The pending assigned request with the least expiration, the first in input order among equals; (0, 0) if there is none |
| OffchainWorker.Collect | pallets/uomi-engine/src/offchain.rs:158-185 | The loop collects exactly the pending assigned requests of the first 100 inputs, in order |
| OffchainWorker.SortByExpiration | pallets/uomi-engine/src/offchain.rs:193-196 | A sorted permutation whose head is the first least element |
| OffchainWorker.EarliestIsUnique | pallets/uomi-engine/src/offchain.rs:157-197 | The choice is determined |
| OffchainWorker.LeastIsEarliest | pallets/uomi-engine/src/offchain.rs:193-196 | The head of the sorted list is the earliest deadline among the inputs |
| OffchainWorker.EarliestIsPending | pallets/uomi-engine/src/offchain.rs:171-176 | The chosen request is pending, no pending one is earlier, and recording its output removes it alone |
| OffchainWorker.DrainRunsEachOnce | pallets/uomi-engine/src/offchain.rs:99-155 | Repeated runs whose outputs are recorded pick every pending request exactly once, in non-decreasing expiration order, and then report none |
| OffchainWorker.DrainDesk | pallets/uomi-engine/src/offchain.rs:99-155 | The repetition terminates and is such a sequence of runs |
| OffchainWorker.WindowIsEverything | pallets/uomi-engine/src/offchain.rs:161-161 | With at most 100 inputs every pending request is considered |
| OffchainWorker.SentinelMeansNothingPending | pallets/uomi-engine/src/offchain.rs:99-106 | Without a request 0, the worker reads the answer as "none" exactly when nothing is pending |
| OffchainWorker.AcceptedIff | pallets/uomi-engine/src/lib.rs:721-728 | A request is stored if and only if somebody asked for it with non-zero id, address and NFT and everything else in order |
| OffchainWorker.RefusalNames | pallets/uomi-engine/src/lib.rs:721-728 | The first unmet condition is the one reported, and a refusal stores nothing |
| OffchainWorker.NoRequestZero | pallets/uomi-engine/src/lib.rs:721-728 | No sequence of accepted requests stores id 0, and each stored one passed the guards |
| OffchainWorker.AtMostOneInside | pallets/uomi-engine/src/offchain.rs:82-155 | In every interleaving of any number of workers at most one is in the agent section and the flag is set exactly when one is |
| OffchainWorker.StepIsExclusive | pallets/uomi-engine/src/offchain.rs:87-151 | Every move of every worker keeps that |
| OffchainWorker.FreeWhenNobodyInside | pallets/uomi-engine/src/offchain.rs:103-151 | Every exit that does not panic clears the flag: with all workers outside, the next one gets in |
| OffchainWorker.OrderlyRun | pallets/uomi-engine/src/offchain.rs:82-155 | From a free section a worker gets through all its stages, and each of the three orderly exits leaves the section free |
| OffchainWorker.CrashClosesForever | pallets/uomi-engine/src/offchain.rs:87-97 | After a panic inside the section no worker ever enters again |
| OffchainWorker.Ticker | pallets/uomi-engine/src/offchain.rs:384-393 | The loop ticks once per started tenth of a second of the budget |
| OffchainWorker.RunClock | pallets/uomi-engine/src/offchain.rs:245-257 | The ticker delivers exactly the armed number of ticks; with maximal time >= 3 and no overflow it is 30 per block of min(expiration - start, max - 3) |
| BaseFee.Times | pallets/base-fee/src/lib.rs:161-161 | A product of two parts-per-million is at most either |
| BaseFee.Coefficient | pallets/base-fee/src/lib.rs:159-161 | At most the elasticity, at any distance from the ideal |
| BaseFee.LowestFee | pallets/base-fee/src/lib.rs:186-190 | At most the default fee, also when the product overflows |
| BaseFee.FloorPriceIs | pallets/base-fee/src/lib.rs:184-190 | The floor price is the number p with p * 10^6 <= default fee * ideal < (p + 1) * 10^6, or the same with the default fee alone if that product does not fit |
| BaseFee.UomiFloor | runtime/uomi/src/lib.rs:840-855 | For the runtime's constants it is 28540000000 |
| BaseFee.NextFeeIs | pallets/base-fee/src/lib.rs:127-201 | The next fee for every configuration, fee and block, by inequalities: fullness, usage, share of the elasticity and move are rounded down in this order; up or down by the deviation, saturating, not below the floor price, unchanged if the fee cannot be scaled |
| BaseFee.UsageIs | pallets/base-fee/src/lib.rs:145-152 | The usage is the position of the fullness in the configured range, 0 below and one above it |
| BaseFee.Pallet.constructor | pallets/base-fee/src/lib.rs:84-90 | Genesis stores both values |
| BaseFee.Pallet.SetBaseFeePerGas | pallets/base-fee/src/lib.rs:233-236 | Replaces the fee and nothing else |
| BaseFee.Pallet.SetElasticity | pallets/base-fee/src/lib.rs:237-240 | Replaces the elasticity and nothing else |
| BaseFee.Pallet.OnFinalize | pallets/base-fee/src/lib.rs:127-201 | The fee follows the controller; the overflow event is emitted exactly when fee times coefficient exceeds 256 bits |
| BaseFee.Pallet.Increase | pallets/base-fee/src/lib.rs:162-172 | Raises by the floored share, saturating; unchanged exactly on overflow |
| BaseFee.Pallet.Decrease | pallets/base-fee/src/lib.rs:178-199 | Lowers by the floored share, not below the floor price; unchanged on overflow |
| BaseFee.FullSwing | pallets/base-fee/src/lib.rs:135-140 | With an ideal of one half, a full block changes the fee by the whole elasticity, an empty one likewise, an ideal one not at all |
| BaseFee.NextFeeMonotone | pallets/base-fee/src/lib.rs:127-201 | From a fee at or above the floor price without overflow, a heavier block never gives a lower next fee, through all roundings |
| BaseFee.UsageMonotone | pallets/base-fee/src/lib.rs:145-152 | Rescaled fullness is monotone in weight |
| BaseFee.MonotoneIff | pallets/base-fee/src/lib.rs:127-201 | With the runtime's constants, a heavier block never gives a lower next fee if and only if the elasticity e is zero, or the fee is at least 28540000000 and either fee * e fits in 256 bits or e is one and 2 * fee does not fit |
| BaseFee.FailsBelowFloor | pallets/base-fee/src/lib.rs:191-195 | From every fee below the floor price an empty block gives a higher fee than a half-full one |
| BaseFee.FailsOnOverflow | pallets/base-fee/src/lib.rs:179-198 | From every fee that scales by the least coefficient but not by the elasticity, an empty block gives a higher fee than a certain fuller one |
| BaseFee.FixedWhenNothingScales | pallets/base-fee/src/lib.rs:163-171 | With elasticity one and a fee that cannot be doubled, no block changes the fee |
| BaseFee.FirstStepCoefficient | pallets/base-fee/src/lib.rs:159-161 | The least distance from the ideal that has an effect has coefficient one, or two at elasticity one |
| BaseFee.StepBounds | pallets/base-fee/src/lib.rs:157-200 | One block keeps the fee at or above the floor price, changes it by at most the elasticity, and moves it in the direction of the deviation |
| BaseFee.FeeEnvelope | pallets/base-fee/src/lib.rs:127-201 | Over every run, also with changing elasticity, the fee stays at or above the floor price and within the compounded elasticities |
| BaseFee.ConstantElasticity | pallets/base-fee/src/lib.rs:128-131 | With a constant elasticity e these are powers of 1 - e and 1 + e |
| BaseFee.DefaultGenesisEnvelope | pallets/base-fee/src/lib.rs:74-90 | From the default genesis, which is at or above the floor price, n blocks keep the fee between (1 - e)^n and (1 + e)^n times the default |
| BaseFee.UomiGenesisEnvelope | runtime/uomi/src/lib.rs:840-855 | For the runtime the fee never falls below 28540000000 after the default genesis, and stays in the envelope |
| UnifiedAccounts.Pallet.constructor | pallets/unified-accounts/src/lib.rs:153-163 | No mappings |
| UnifiedAccounts.Pallet.ClaimEvmAddress | pallets/unified-accounts/src/lib.rs:180-229 | Refines the claim with its errors in order; an error leaves everything as it was |
| UnifiedAccounts.Pallet.ClaimDefaultEvmAddress | pallets/unified-accounts/src/lib.rs:237-273 | Refines the default claim, likewise |
| UnifiedAccounts.Pallet.ChargeStorageFee | pallets/unified-accounts/src/lib.rs:277-282 | Burns the fee if the account can pay it and stay alive |
| UnifiedAccounts.Pallet.OnKilledAccount | pallets/unified-accounts/src/lib.rs:379-388 | Drops both directions of the account's mapping |
| UnifiedAccounts.ClaimSucceedsIff | pallets/unified-accounts/src/lib.rs:186-203 | A claim succeeds if and only if both sides are free, the signature recovers to exactly the claimed address, and the claimer keeps the deposit after the fee; each error has its exact condition |
| UnifiedAccounts.ClaimDefaultSucceedsIff | pallets/unified-accounts/src/lib.rs:249-262 | The same for a default claim |
| UnifiedAccounts.MappingsAreProven | pallets/unified-accounts/src/lib.rs:196-200 | In every run each mapped address is its account's default or was recovered from a signature for that account |
| UnifiedAccounts.ClaimKeeps | pallets/unified-accounts/src/lib.rs:180-229 | A successful claim, with the kill of the default account in its middle, keeps the maps mutual inverses and connects the pair; mapped accounts still exist if and only if the claimer or the default account existed |
| UnifiedAccounts.ClaimDefaultKeeps | pallets/unified-accounts/src/lib.rs:248-273 | The same for a default claim |
| UnifiedAccounts.EmptiedKeeps | pallets/unified-accounts/src/lib.rs:207-216 | Emptying an account and running the hook keeps the maps mutual inverses and frees no more than that account's pair |
| UnifiedAccounts.StepKeeps | pallets/unified-accounts/src/lib.rs:180-388 | Every event keeps the maps mutual inverses |
| UnifiedAccounts.MapsStayInverse | pallets/unified-accounts/src/lib.rs:180-388 | Every interleaving of claims, default claims, kills and endowments keeps the maps mutual inverses and, with a positive fee, over existing accounts only |
| UnifiedAccounts.MappedAccountsExistIffFee | pallets/unified-accounts/src/lib.rs:277-282 | All mapped accounts exist in all runs if and only if the fee is positive |
| UnifiedAccounts.MappingIsForLife | pallets/unified-accounts/src/lib.rs:379-388 | A mapping lasts exactly until its account is closed |
| UnifiedAccounts.ClaimsBurnTheFee | pallets/unified-accounts/src/lib.rs:277-282 | A successful claim of either kind lowers total issuance by exactly the storage fee |
| UnifiedAccounts.ClaimMovesTheDefaultBalance | pallets/unified-accounts/src/lib.rs:205-216 | The claimer pays the fee and gets all of the default account; no third balance changes |
| UnifiedAccounts.ClaimDefaultMovesNothing | pallets/unified-accounts/src/lib.rs:262-266 | A default claim costs the fee and changes no other balance |
| UnifiedAccounts.EmptiedConserves | pallets/unified-accounts/src/lib.rs:207-216 | Emptying conserves issuance |
| UnifiedAccounts.LookupsInvert | pallets/unified-accounts/src/lib.rs:351-405 | For mapped accounts and addresses the two lookups undo each other |
| UnifiedAccounts.LookupsFallBack | pallets/unified-accounts/src/lib.rs:351-375 | Without a mapping both lookups give the default |
| TssPallet.Pallet.constructor | pallets/tss/src/lib.rs:189-226 | Empty storage |
| TssPallet.Pallet.Initialize | pallets/tss/src/lib.rs:629-643 | Refines the block hook |
| TssPallet.Pallet.AssignValidatorId | pallets/tss/src/lib.rs:672-694 | Refines the assignment, idempotent for a known validator |
| TssPallet.Pallet.Update | pallets/tss/src/lib.rs:316-333 | The loop refines assigning ids to the whole list |
| TssPallet.Pallet.GetNextSessionId | pallets/tss/src/lib.rs:504-509 | Returns the counter and advances it, modulo 2^64 |
| TssPallet.Pallet.CreateDkg | pallets/tss/src/lib.rs:261-312 | Refines the creation of a key-generation session with its refusals |
| TssPallet.Pallet.CreateSigning | pallets/tss/src/lib.rs:337-396 | Refines the creation of a signing session, with the search for its key generation |
| TssPallet.AssignKeeps | pallets/tss/src/lib.rs:672-694 | One assignment keeps the two id maps inverse bijections below the counter |
| TssPallet.AssignAllKeeps | pallets/tss/src/lib.rs:316-333 | So does a whole list with repeats, and everyone in it then has an id |
| TssPallet.IdsAreABijection | pallets/tss/src/lib.rs:629-694 | In every run without counter overflow the two id maps are inverse bijections below the counter and every active validator has an id |
| TssPallet.StepKeepsIds | pallets/tss/src/lib.rs:629-694 | Every event keeps that and every assigned id |
| TssPallet.IdsAreForever | pallets/tss/src/lib.rs:672-694 | An assigned id never changes in any longer run |
| TssPallet.UpdateActivates | pallets/tss/src/lib.rs:316-333 | An update succeeds if and only if the list fits, and then exactly it is active |
| TssPallet.IdsStartAtOne | pallets/tss/src/lib.rs:629-643 | If the hook comes first, id 0 is never given out |
| TssPallet.FirstIdWithoutHook | pallets/tss/src/lib.rs:672-694 | Without it the first validator gets id 0 |
| TssPallet.DkgIsCreatedIff | pallets/tss/src/lib.rs:261-290 | The exact condition for a key-generation session |
| TssPallet.SessionsAreAsAsked | pallets/tss/src/lib.rs:291-312 | In every run each stored session was asked for, by the permitted account, with exactly its percentage, participants, NFT and message |
| TssPallet.DkgIsRecorded | pallets/tss/src/lib.rs:291-312 | An accepted request is stored under the next id as asked, and stays so in every longer run |
| TssPallet.SigningIsRecorded | pallets/tss/src/lib.rs:377-393 | The same for signing, with a key generation of the same NFT |
| TssPallet.SessionsAreForever | pallets/tss/src/lib.rs:261-396 | No longer run changes a stored session |
| TssPallet.SessionsStaySound | pallets/tss/src/lib.rs:261-396 | In every run session ids of both kinds are disjoint and fresh, each signing session refers to a key generation of the same NFT, and no session disappears |
| TssPallet.StepKeepsSessions | pallets/tss/src/lib.rs:261-396 | Every event keeps that |
| TssPallet.SigningNeedsDkg | pallets/tss/src/lib.rs:358-371 | A signing session can be created if and only if its NFT has a key generation, in any storage order |
| TssPallet.FindsWhatIsThere | pallets/tss/src/lib.rs:358-367 | The search finds the first listed key generation of the NFT, exactly when one is listed |
| TssPallet.AcceptedThresholdsAreUsable | client/tss/src/lib.rs:2950-2951 | For every accepted session floor(percentage * n / 100) is in 1..n if and only if percentage * n >= 100, hence always for n >= 2 |

## Left out

- FROST, multi-party ECDSA, sr25519 and EIP-712 cryptography: parameters only, constrained by nothing but success and failure.
- Outgoing messages: gossip, channels and the recursive routing of ECDSA messages between nodes, which depends on an unseen library.
- OPoC assignment and consensus; assignments and outputs are inputs of the worker model.
- HTTP, wasm host functions, the IPFS daemon and the off-chain choice of what to pin; key-file input and output is taken to succeed.
- Node, RPC, chain specifications, precompiles and chain extensions: wiring with no state of their own.
- Locks, holds and freezes of the balances pallet: the ledger here is plain, with an existential deposit.
- `initialize_validator_ids`: only safe on empty maps and not called by the hooks.
- Disabled dispatchables of the TSS pallet, and the disabled inherent check of uomi-engine: its operations are taken to come from the author's computation.
- Restarts: key files that an earlier process left on disk are not part of the initial state.
- SessionLocality.SessionsAreIsolated: the result files of the ECDSA protocols and messages that the router delivers back to the node are outside the state.
- SessionLocality.StepIsLocal: the same.
- DkgStorage.FileStorage.StoreFile: input and output errors are taken not to occur.
- SessionManagement.SessionManager.constructor: the timeout is the two hours that the node's set-up gives it, not the initial one hour.
- SessionManagement.SessionManager.AddAndInitializeSigningSession: whether the ECDSA offline output exists is a flag of the event.
- DkgStorage.FileStorage.constructor: the digest is taken as injective, which SHA-256 is only in practice.
- OffchainWorker.NoRequestZero: the later checks of a request (sizes, pin, agent lookup) are one flag.
- TssPallet.AcceptedThresholdsAreUsable: the source converts the percentage in floating point; here it is the exact floor.
- OffchainWorker.RunClock: a time budget over 64 bits is modelled as a panic, as in a build with overflow checks; a release build wraps.
- BaseFee.NextFeeMonotone: the parts-per-million arithmetic is that of the Substrate library, floor with saturation; it is not part of the repository.
