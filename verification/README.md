# kfadapter control and data plane, modelled in Dafny

The adapter logs in to a provider, publishes the nodes it gets as a SOCKS5
subscription, and tunnels authenticated connections through them. This project
models the parts where its safety rests on several pieces moving together and
proves what they promise. `dafny verify dfyconfig.toml` checks everything.

## How the model is laid out

- **Vocabulary.** `Foundations` (options, order on strings, unstable sorting,
  runs of a machine), `StateTypes` (durable and runtime records and their
  checks), `Platform` (keyed hashes, host canonicalisation, Base64 and URL text
  as unknown functions with the laws that are relied on).
- **Selectors.** `Credentials` is the builder with its loops over maps and
  slices; `SelectorRuns` is what holds over runs of builds.
- **Manager.** `Manager` has each critical section as a step function and the
  class proved against the steps; `ManagerRuns` quantifies over all sequences of
  calls.
- **Durable aggregate.** `Rendering`, `Durable` and `Bodies` are the renderer
  and both validators; `Subscriptions` is the service over the store;
  `Acceptance` shows that what the builder makes is what the checkers accept;
  `FetchProof` interleaves the service with fetchers that give up the lock; `Setback`
  is a concrete platform and a run on it.
- **Publication.** `Control` lists the atomic changes a SOCKS handler could
  see. `Publication` is the saga with its rollbacks, `Refreshing` login and
  refresh, `RuntimeFacade` the locked entry points, `Startup` the beginning.
  A ghost history in the publisher records every change and is proved to be a
  history of `Control`, so what `Control` and `Admission` prove applies to the
  classes.
- **Admission.** `Admission` interleaves a SOCKS handler, step by step, with any
  such history; `SocksHandler` is that handler as a class, and `AdmittedSample` a
  client that gets in.
- **Byte streams.** `Streams`, `Uot`, `UdpRelay`, `Handshake`, `LazyInbound`.
- **Login limiter.** `LoginWindows`, `BrowserSessions`.
- **Codec and sampling.** `Codec`, `Sampling`.

Clock readings, fresh keys, answers of the provider, and whether the disk works
are arguments. Times are nanoseconds since the zero time, which itself is "not
set". Clocks of the control plane may do anything; where a result needs readings
in order, it says so.

## Main results

- **Admission:** `Admission.AdmittedTunnelIsAuthorised`,
  `Admission.DialledIsAuthorised`, `Admission.UndisturbedHandler`,
  `AdmittedSample.SomebodyIsAdmitted`, `Control.AbandonedForever`.
- **Publication:** `Publication.Publisher.Publish`,
  `Publication.ManagerCommitCannotFail`, `RuntimeFacade.CompletesExactly`,
  `RuntimeFacade.Runtime.Login`, `RuntimeFacade.Runtime.Refresh`.
- **Durable aggregate:** `Acceptance.AcceptedExactlyWhenPublishable`,
  `FetchProof.ProofIsExact`, `FetchProof.ServedBodyOffers`,
  `FetchProof.ClaimNeverOrphaned`,
  `FetchProof.RepublishKeepsProof`, `Startup.StartUp`.
- **Selectors:** `SelectorRuns.BuildDeterministic`,
  `SelectorRuns.NoRemapWithinGrace`, `SelectorRuns.CutExactlyWhenCrowded`,
  `Refreshing.SecondPassRepeats`.
- **Manager:** `ManagerRuns.NoPinUntilCommit`,
  `ManagerRuns.SupersededCompletionIsInert`, `ManagerRuns.GenerationsGrow`.
- **Streams:** `UdpRelay.EchoReturns`, `Handshake.ConversationDecrypts`,
  `Handshake.IvErrorDropped`, `LazyInbound.DeadlineDiscipline`.
- **Login limiter:** `BrowserSessions.RunsAreLimited`,
  `LoginWindows.AtMostNinePerMinute`.
- **Codec and sampling:** `Codec.DecodeEncode`, `Codec.DeriveKey`,
  `Sampling.Unbiased`.

## What the proofs brought to light

- The manager's raw transition to the signed-out state does not wipe sessions
  and is reversible (`ManagerRuns.RawSignOutIsReversible`). Production uses the
  sign-out call instead.
- Cutting the tombstones at their limit shortens the grace time of the names that
  are cut (`SelectorRuns.GraceCutShort`). A name is cut exactly when at least
  8192 others are preferred to it (`SelectorRuns.CutExactlyWhenCrowded`), and
  otherwise the grace time is kept (`SelectorRuns.NoRemapWithinGrace`).
- The compensating write of a publication has no work to do for the answers of the
  provider, whose nodes all name their client profile. The manager refuses what is
  already durable exactly when a node has no session and the clock has gone back
  behind the expiry that the durable check saw (`Publication.CommitRefusedExactly`,
  `Refreshing.TornBackwards`).
- A stored fetch proof is never compared with the body it belongs to
  (`FetchProof.ProofNotCompared`).
- The final check of an address move leaves the moved record and the new address in
  place when it fails (`Subscriptions.Service.SetSocksAddress`), and a second call
  then reports success without priming the cache. It fails exactly if its clock
  reading comes before the expiry of a stored session that leaves a node without one
  (`FetchProof.MoveFailsExactly`); aggregates whose nodes all have a session never
  meet this, whatever the clock does. `Setback.MoveStalls` is an input.
- After a successful fetch record the cache keeps its `fetching` flag. That is
  harmless as long as two successive bodies do not share a hash, except that moving
  back after such a failed move revives the flag without its proof, and then no claim
  to record a fetch is accepted (`FetchProof.ClaimNeverOrphaned`,
  `Setback.FlagStaysSet`).
- A node with an unknown client profile is counted by the stored rendering but
  not by the served one, so a snapshot with an eligible one is refused
  (`Acceptance.MaskedCount`).
- Reading the server IV drops an error that arrives together with its last byte
  (`Handshake.IvErrorLost`), and only then (`Handshake.IvErrorDropped`).
- The login limiter counts five failures in a window that opens with the first
  of them; over a sliding minute the exact bound is nine
  (`LoginWindows.NineIsReached`).
- An accepted UDP datagram can be one byte longer than the 65535-byte buffer of the
  relay (`Uot.AcceptedSizes`); a frame of that size ends the way back to the client
  (`UdpRelay.SentArrives`).
- The sampler never returns for a range beyond 2^32
  (`Sampling.NothingBeyondSpace`). No caller asks for one.
- The verifier has no mark for a split past the 64th character, which texts of
  more than 65 characters can draw (`Sampling.SplitPastAlphabet`).
- Decoding and encoding again gives the same body exactly for bodies in the form
  the encoder writes (`Codec.EncodeDecode`). The comments call the decoder
  strict; whether Base64 text in another form decodes is up to the library.

## Model

| member | source | states |
|---|---|---|
| Admission.AdmittedTunnelIsAuthorised | internal/socks/server.go:257-470 | In every interleaving of a handler with login, refresh, probe, logout and expiry, a success reply has three resolutions behind it. At the second and the third the password is the one issued under the standing keys, the selector is live, and the pin carries the session that its snapshot has for the profile of the node; between them the acknowledged session was still current; all name the same canonical node and session, the dialled and the sent ones, with the supported cipher |
| Admission.DialledIsAuthorised | internal/socks/server.go:287-395 | The same of whatever has been dialled, however the handler goes on: node and session are those of a resolution at which everything was in order |
| Admission.NobodyAdmittedWithoutSession | internal/socks/server.go:424-455 | At the admitting moment the manager holds sessions and serves, so logout, expiry or a failed login that no commit has followed admits nobody |
| Admission.UndisturbedHandler | internal/socks/server.go:287-455 | A handler nothing interferes with is admitted exactly when the password is the prefixed tag of a selector of the issued form, the selector has a live reference to a node that can be tunnelled to and has a canonical form, its session is usable, and the method is one of the spellings of the cipher; character by character |
| Admission.AcceptableIsAdmitted | internal/socks/server.go:257-455 | So such credentials are admitted in some run from any sound state |
| AdmittedSample.SomebodyIsAdmitted | internal/socks/server.go:257-455 | A concrete manager, registry and client for which that run exists |
| Admission.SupportedExactly | internal/socks/server.go:356 | The cipher names that pass, as bytes: eleven characters in either case, with the long s allowed for the letter s |
| Admission.SupportedAscii | internal/socks/server.go:356 | Of ASCII names: eleven characters, each that of the name or its capital |
| Admission.SameNodeExactly | internal/socks/server.go:532-536 | Two nodes are the same exactly if both have a canonical form and agree in identifier, port, host form and capital provider |
| SocksHandler.SocksConnection.Advance | internal/socks/server.go:257-455 | One step of the handler as the program runs it, proved against the step of the machine; its record is a record of the machine |
| SocksHandler.EqualFoldCipher | internal/socks/server.go:356 | The loop that compares the folded cipher name |
| SocksHandler.ConfirmPin | internal/socks/server.go:342-349 | The comparison of two resolutions, field by field |
| Admission.ResolvedOrAbandoned | internal/socks/server.go:433-446 | At every resolution the loaded registry either carries the standing generation and keys, or is gone for good, so the pointer recheck behind it must fail |
| Control.AbandonedForever | internal/app/selector_coordinator.go:81-126 | A registry abandoned by a successful publication or a rollback never becomes current again; the swap and rollback ABA on the pointer is harmless |
| Control.ChangeKeepsSound | internal/app/runtime.go:763-811 | Every atomic change of manager and registries, publication steps and rollbacks included, keeps the registry in step with the generation and every snapshot with sessions under one generation bound to its account |
| Control.SoundThroughout | internal/app/runtime.go:763-811 | The same in every state of every history |
| Control.PublicationAbandons | internal/app/selector_coordinator.go:101-124 | A successful publication abandons the old registry, a rollback the new one |
| Control.PinUnderStanding | internal/state/manager.go:184-209 | A pin issued for the generation of a registry still in play is issued under the standing generation, and its session belongs to the account bound to it |
| Control.ChangeKeepsRegistry | internal/app/selector_coordinator.go:101-124 | No change puts another registry under a used identity or revives an abandoned one |
| Publication.Publisher.Publish | internal/app/runtime.go:763-811 | All or nothing: on success manager, both registries, durable aggregate and cache carry the planned generation and the same rebuilt snapshot; on any failure the first four are as before, and the cache as well or primed again from that aggregate; each refusal states its cause |
| Publication.ManagerCommitCannotFail | internal/state/manager.go:495-532 | Once the aggregate is durable, the manager commit that follows has no reason left to fail |
| Publication.CommitRefusedExactly | internal/state/manager.go:495-532 | Whatever the clock: the manager refuses a durable aggregate exactly when it has not run out at its own reading and some node has no session, which takes a clock that went back |
| Publication.StoredExactlyWhenPublishable | internal/subscription/service.go:420-476 | On a healthy disk the storing step accepts a rebuilt snapshot exactly when its sessions, lifetime and rendering are in order |
| Publication.Publisher.Prepare | internal/app/runtime.go:763-787 | Plan, install and swap, recorded step by step; a failure leaves every holder as it was |
| Publication.Publisher.SwapRegistries | internal/app/runtime.go:782-786 | Rebuilds and swaps, or takes the manager back to its previous generation |
| Publication.Publisher.Adopt | internal/app/runtime.go:790-811 | Durable commit and manager commit, or the way back through all steps |
| Publication.Publisher.UndoAuthority | internal/app/runtime.go:798-806 | Both in-memory rollbacks restore the previous generation and registry |
| Publication.SelectorCoordinator.InstallGeneration | internal/app/selector_coordinator.go:81-126 | Swaps control and SOCKS registry to the new generation and returns the snapshot rebuilt under it, or changes nothing, exactly when the registry or the build is impossible |
| Publication.SelectorCoordinator.Rollback | internal/app/selector_coordinator.go:113-124 | Both pointers return to the given registry |
| Publication.InstalledAccepts | internal/state/manager.go:495-532 | A valid, eligible, newer snapshot of the account just installed meets no objection of the manager |
| RuntimeFacade.Runtime.Login | internal/app/runtime.go:497-531 | Keeps, at the release of the lock, the agreement of manager, registries and store; ends rejected with nothing changed, failed with only the sign-out, or done with every holder adopting and each field of both sessions the one the answers hold for it; torn only for answers with unmarked nodes under a clock that went back |
| RuntimeFacade.Runtime.Refresh | internal/app/runtime.go:561-590 | The same for a refresh, the fields of the sessions included, with the exact ways it may end: a failure keeps generation, registry and record, and only an expired manager gives up the durable session |
| RuntimeFacade.CompletesExactly | internal/app/runtime.go:497-590 | For marked nodes and any order of clock readings, a login or refresh completes exactly when it may begin, its answers compose, the planned generation can be installed, the rebuilt snapshot is publishable and the disk works |
| Refreshing.TornBackwards | internal/app/runtime.go:790-806 | A publication leaves a new aggregate behind an old manager only if the clock went back between the two checks, a node has no client profile, and the prior aggregate cannot be written back; provider answers mark every node |
| RuntimeFacade.Runtime.StoredIsServed | internal/subscription/service.go:855-868 | At every release the stored aggregate has passed the full check at the listener address, and the cache serves it or, behind a move that failed its final check, the same nodes at an earlier address |
| RuntimeFacade.Runtime.ClaimFetch | internal/subscription/service.go:706-715 | Claiming a fetch keeps the agreement and is a step of the recorded run of the service |
| RuntimeFacade.Runtime.RecordFetch | internal/subscription/service.go:717-748 | So does recording it, whatever it finds |
| RuntimeFacade.Runtime.MoveListener | internal/subscription/service.go:130-177 | So does a move to another address, even one that fails its final check; says exactly when the move succeeds and what record, address and cache are after each ending |
| RuntimeFacade.Runtime.MoveDecided | internal/subscription/service.go:157-176 | At every release a move succeeds, and its final check fails, exactly as the two clock readings say: a reading fails only before the expiry of a stored session that leaves some node without one, which is before the last full check |
| RuntimeFacade.Runtime.SessionDroppable | internal/state/store.go:785-791 | At every release the stored aggregate without its session can be written at any reading |
| RuntimeFacade.Runtime.Logout | internal/app/runtime.go:536-557 | Succeeds exactly while running on a working disk: then the durable session is gone and the manager signed out, and otherwise nothing changes |
| RuntimeFacade.Runtime.Sweep | internal/app/runtime.go:594-622 | Expires exactly when due, and drops the durable session if the disk allows |
| RuntimeFacade.Runtime.ProbeStart | internal/app/runtime.go:657-673 | Chooses an eligible node of a usable snapshot |
| RuntimeFacade.Runtime.ProbeFinish | internal/app/runtime.go:696-712 | Records the health exactly when the target still matches, the session is usable and the manager has no objection; only the runtime snapshot moves on |
| RuntimeFacade.Runtime.UpdateProbe | internal/app/runtime.go:738-757 | Gives the first bearer of the identifier the new health record |
| RuntimeFacade.Runtime.MatchTarget | internal/app/runtime.go:730-736 | The target still names the same node of the same generation |
| RuntimeFacade.Runtime.AccessSetup | internal/app/runtime.go:323-351 | Succeeds exactly when there is no verifier yet and the aggregate with the new one can be written, and configures the binding key with it; otherwise nothing changes |
| RuntimeFacade.Runtime.ClearActiveSession | internal/app/runtime.go:923-932 | Drops the durable session exactly on a working disk; otherwise leaves everything |
| RuntimeFacade.Runtime.Stop | internal/app/runtime.go:271-280 | Wipes the sessions in memory and leaves the durable session |
| RuntimeFacade.ConclusionAgrees | internal/app/runtime.go:497-590 | However a login or refresh ends, the holders agree again, no operation is active and the manager is out of authenticating and syncing |
| RuntimeFacade.AdoptionAgrees | internal/app/runtime.go:763-811 | After a publication manager, registry and store agree on generation, keys and sessions |
| RuntimeFacade.FailureSettles | internal/state/manager.go:428-455 | A failed login ends signed out, a failed refresh degraded with its snapshot or expired |
| RuntimeFacade.RefreshAgrees | internal/app/runtime.go:561-590 | Agreement also after a refresh that found its authority expired, and what a torn one leaves |
| RuntimeFacade.ProbeAgrees | internal/app/runtime.go:738-757 | A probe commit keeps the agreement, as it keeps the sessions |
| RuntimeFacade.ProbeChangesHealthOnly | internal/app/runtime.go:738-757 | A probe changes nothing but the health record of the node that a lookup finds |
| Startup.StartUp | cmd/kfadapter/main.go:186-240 | Starts exactly when the aggregate is there or can be made, passes the full check, can be restored, rendered at the chosen address, and freed of a session that ran out; the facade is then in agreement, and a session that outlives every reading of the start serves at once |
| Startup.Load | cmd/kfadapter/main.go:186-204 | Loads exactly what passes the check, or creates the first aggregate; a session that ran out is dropped, or the start fails if that cannot be written |
| Startup.FirstStartLoads | internal/state/store.go:666-715 | A first start with entropy and a disk always loads, with fresh keys and nothing else |
| Startup.Assemble | cmd/kfadapter/main.go:205-240 | Manager, registry and service over one aggregate agree; exactly the restorable, servable aggregates assemble |
| Startup.Open | internal/app/runtime.go:218-232 | A session that ran out during the start is expired in memory and dropped on disk |
| Startup.RestoredIsSound | internal/state/manager.go:106-146 | A restored manager with a fresh registry is a sound start of every history |
| Startup.RestoredAgrees | internal/state/manager.go:106-146 | A restored manager agrees with the aggregate it came from |
| Refreshing.Refresher.Login | internal/kuaifan/refresh.go:107-136 | Ends as Concludes says: rejected unchanged, withdrawn with only the sign-out and a stated cause, or done with all holders adopting the offered snapshot and the manager ready; then token and user number are those of the session answers, and provider token, key, cipher and extension those of the catalogs |
| Refreshing.Refresher.Refresh | internal/kuaifan/refresh.go:140-175 | Lapses exactly when due, otherwise ends like a login, with the same fields, failing to degraded or expired |
| Refreshing.Refresher.Attempt | internal/kuaifan/refresh.go:113-135 | Everything after the provider sessions, with its completion |
| Refreshing.Refresher.ExpireIfNeeded | internal/kuaifan/refresh.go:248-264 | Reports expiry exactly when due and expires a ready or degraded manager |
| Refreshing.Refresher.Compose | internal/kuaifan/refresh.go:383-417 | The offered snapshot: next generation, both sessions with every field from the answer it belongs to, merged nodes built under the registry in place |
| Refreshing.DoneCarries | internal/kuaifan/refresh.go:383-417 | A finished login or refresh publishes, in manager and store, the sessions field by field, the earliest expiry, and only nodes that the answers list, each built from its source |
| Refreshing.SecretsOf | internal/kuaifan/refresh.go:419-425 | Fills each field from its answer; the user number reads back from its decimal text |
| Refreshing.AggregateAccount | internal/kuaifan/refresh.go:361-381 | The account of the two answers, or none without a plan or an end |
| Refreshing.Refresher.CommitAnswers | internal/kuaifan/refresh.go:383-417 | Offers and publishes, or leaves every holder as it was for a stated cause |
| Refreshing.Refresher.BuildSelectors | internal/kuaifan/refresh.go:442-519 | The first selector pass is a build over the references of the current credential generation, or fails because that build has a problem |
| Refreshing.Refresher.Enter | internal/state/manager.go:385-426 | Takes the lease of an operation, or leaves everything, with the reason of the manager |
| Refreshing.Refresher.Release | internal/state/manager.go:419-426 | The deferred completion applies the manager step |
| Refreshing.SecondPassRepeats | internal/app/selector_coordinator.go:89-101 | With an unchanged generation the pass inside publication returns the same nodes and the same references minus tombstones that ran out in between |
| Refreshing.MergeProfileNodes | internal/kuaifan/refresh.go:427-440 | The merge is the first bearer of every identifier, in order |
| Refreshing.FirstsKeepIds | internal/kuaifan/refresh.go:427-440 | The merge loses no identifier and repeats none |
| Refreshing.FirstsAreFirst | internal/kuaifan/refresh.go:427-440 | Of several bearers the merge takes the first, iOS before Windows |
| Refreshing.AccountEndsEarliest | internal/kuaifan/refresh.go:365-381 | VIP only if both profiles agree, until the earlier known end, whichever profile comes first |
| ManagerRuns.NoPinUntilCommit | internal/state/manager.go:184-226 | After sign-out, expiry or a failed login no pin is issued or confirmed before the next commit, whatever calls come between, raw transitions included |
| ManagerRuns.SupersededCompletionIsInert | internal/state/manager.go:428-455 | A completion whose lease was released or superseded changes nothing, then or later |
| ManagerRuns.RawSignOutIsReversible | internal/state/manager.go:459-491 | The raw transition to signed out keeps the sessions: two more transitions bring every pin back |
| ManagerRuns.SessionsOnlyByCommit | internal/state/manager.go:495-532 | Without a commit no run of calls brings sessions back |
| ManagerRuns.GenerationsGrow | internal/state/manager.go:495-532 | Snapshot generations only grow, and each accepted commit is above all before it |
| ManagerRuns.LeasesGrow | internal/state/manager.go:385-426 | Leases never go down |
| ManagerRuns.PinExactly | internal/state/manager.go:184-209 | A pin is issued exactly for a live reference of the asked generation, with its node: it carries the Windows session for a node marked Windows, the iOS session for one marked iOS or not marked, and no other profile gets one |
| ManagerRuns.IssuedPinIsCurrent | internal/state/manager.go:214-226 | A freshly issued pin passes the final check |
| Manager.StateManager.BeginOperation | internal/state/manager.go:385-426 | The begin step of the machine: one operation at a time, from the allowed states, with a new lease |
| Manager.StateManager.FinishOperation | internal/state/manager.go:428-455 | The finish step: inert for a foreign lease, otherwise success, sign-out, expiry, degraded or faulted |
| Manager.StateManager.Commit | internal/state/manager.go:495-532 | Accepts exactly the snapshots without a problem and publishes them; otherwise changes nothing |
| Manager.StateManager.InstallSubscriptionGeneration | internal/state/manager.go:231-263 | Installs exactly a permitted successor or the same credentials |
| Manager.StateManager.ReinstallSubscription | internal/state/manager.go:263-272 | The rollback acts only while its candidate is still installed |
| Manager.StateManager.LogOut | internal/state/manager.go:542-563 | Supersedes every lease and wipes sessions and account |
| Manager.StateManager.MarkExpired | internal/state/manager.go:570-597 | Wipes the sessions and sets the expiry, from the allowed states |
| Manager.StateManager.MoveTo | internal/state/manager.go:459-491 | Moves exactly along the transition table |
| Manager.StateManager.ConfigureBindingKey | internal/state/manager.go:150-162 | Takes a key of the right size once |
| Manager.StateManager.Pin | internal/state/manager.go:184-209 | The pin resolution of the machine, with its error cases; an issued pin has a node of the snapshot and the session of the profile it is marked for |
| Manager.StateManager.ConfirmSession | internal/state/manager.go:214-224 | Confirms exactly the current session of the profile, between creation and the same expiry, while serving |
| Manager.AccountBinding | internal/state/types.go:565-582 | The keyed hash of the trimmed user number, or none for an impossible number or key |
| Manager.MatchAccount | internal/state/types.go:584-591 | Compares a stored binding with it |
| StateTypes.ForExactly | internal/state/types.go:236-245 | Which of the two sessions a profile gets |
| StateTypes.SessionExactly | internal/state/types.go:183-194 | A valid session has all six fields, within their limits and without a zero byte |
| StateTypes.SessionsExactly | internal/state/types.go:222-234 | Valid sessions: a valid iOS session, and a Windows session that is empty or valid for the same user |
| StateTypes.UsableExactly | internal/state/manager.go:601-603 | A usable snapshot: valid sessions, from the creation up to but not at the expiry |
| StateTypes.TunnelEligibleExactly | internal/state/types.go:147-149 | What a node needs to be tunnelled to |
| StateTypes.WifiinExactly | internal/state/types.go:147-149 | The provider name, letter by letter in either case |
| Manager.NewManager | internal/state/manager.go:106-146 | Restores ready, expired or signed out, or refuses a session that is not bound to the subscription |
| StateTypes.ValidateRuntimeSnapshot | internal/state/types.go:347-394 | The loop check accepts exactly the structurally valid snapshots |
| StateTypes.ValidateSelectors | internal/state/types.go:373-392 | Every reference is a dated tombstone or names a node |
| StateTypes.NodeByID | internal/state/types.go:310-320 | Finds the first bearer of an identifier |
| StateTypes.FindNode | internal/state/types.go:310-320 | A found node is in the list and bears the identifier; otherwise nobody does |
| Credentials.BuildWithTombstones | internal/selector/credentials.go:263-353 | Returns the first problem of the input, or a view of the surviving nodes with live references and exactly the greatest tombstones, for any iteration order and any unstable sort; each built node is an input node but for the host in canonical form, the provider in capitals, and the selector, which is the tag of exactly that identifier, provider, host and port |
| SelectorRuns.BuildDeterministic | internal/selector/credentials.go:263-353 | Two builds of the same input are equal, so neither map order nor the sort shows |
| SelectorRuns.GreatestUnique | internal/selector/credentials.go:332-340 | The kept tombstones are determined by deadline and name |
| SelectorRuns.BuildMovesEveryName | internal/selector/credentials.go:303-331 | What one build does to the status of any name, the size limit included |
| SelectorRuns.NoRemapWithinGrace | internal/selector/credentials.go:303-331 | Over any run of builds fed their own output, a name that comes to mean another node has waited the full grace time, unless in some round on the way at least 8192 other names to refuse were preferred to it |
| SelectorRuns.CutExactlyWhenCrowded | internal/selector/credentials.go:332-340 | A name to refuse finds no place exactly when at least 8192 others are preferred to it, by deadline and then by name |
| SelectorRuns.CutExactlyBeyondLimit | internal/selector/credentials.go:338-340 | Some name is cut exactly when more names than the limit are to be refused |
| SelectorRuns.ManyTombstonesCut | internal/selector/credentials.go:338-340 | With more running tombstones than the limit some name is cut |
| SelectorRuns.CutNameReturns | internal/selector/credentials.go:308-348 | Whoever bears a cut name in the next build is live there, whatever the deadline of the lost tombstone |
| SelectorRuns.GraceCutShort | internal/selector/credentials.go:303-351 | An input on which the limit shortens the grace: a node buried until a deadline among 8192 longer tombstones is left out of one build and live in the next, before its deadline |
| SelectorRuns.ExpiredNameReturns | internal/selector/credentials.go:308-331 | A build at or past the deadline makes a present node live again |
| SelectorRuns.BurialCarried | internal/selector/credentials.go:308-323 | A carried tombstone keeps its deadline |
| SelectorRuns.SecondPassSucceeds | internal/app/selector_coordinator.go:89-97 | A build over built nodes under the same keys has no problem |
| SelectorRuns.SecondPassIsFixpoint | internal/app/selector_coordinator.go:89-97 | And returns the same nodes and the unexpired references |
| SelectorRuns.ViewSize | internal/selector/credentials.go:338-352 | A view has at most as many references as live nodes and the tombstone limit |
| SelectorRuns.BuildFacts | internal/selector/credentials.go:263-353 | The nodes of a view are distinct survivors of the refined input |
| Credentials.SelectNodes | internal/selector/credentials.go:274-302 | The first loop reports the first problem or refines every node, in place, as a build does |
| Credentials.RefinedFrom | internal/selector/credentials.go:73-90 | What a node refines to and when it does, each field from its source |
| StateTypes.UpperExactly | internal/selector/credentials.go:91-107 | The capital form of a provider, letter by letter |
| Credentials.CanonicalTells | internal/selector/credentials.go:128-137 | Two canonical identities share the text that is hashed exactly when they are equal |
| Credentials.AuthenticatesExactly | internal/selector/credentials.go:227-238 | Which pairs of texts are accepted: a selector of the issued form, with the one password that is the tag of it |
| Credentials.CanonicalIdentityOf | internal/selector/credentials.go:73-126 | The canonical identity, with the first thing that is wrong |
| Credentials.CredentialsOf | internal/selector/credentials.go:148-160 | The derived pair for usable keys |
| Credentials.MakeRegistry | internal/selector/credentials.go:183-200 | A registry for a numbered generation with keys of the right size |
| Credentials.CollectTombstones | internal/selector/credentials.go:303-331 | The second loop lists exactly the names to refuse and marks their bearers |
| Credentials.KeepActive | internal/selector/credentials.go:341-348 | The survivors, each with its live reference |
| Credentials.AddTombstones | internal/selector/credentials.go:349-351 | The kept tombstones, next to the live references |
| Credentials.CutKeepsGreatest | internal/selector/credentials.go:332-340 | Cutting the sorted list keeps the greatest by deadline, then name |
| Credentials.FoldProvider | internal/selector/credentials.go:91-107 | Upper-cases printable ASCII providers and refuses others |
| Credentials.CanonicalizeIdempotent | internal/selector/credentials.go:73-89 | Canonical form is stable |
| Credentials.RefineIdempotent | internal/selector/credentials.go:285-301 | Refining a refined node changes nothing |
| Credentials.DerivedCredentialsAuthenticate | internal/selector/credentials.go:227-238 | A derived pair authenticates, and no other password does with its selector |
| Acceptance.AcceptedExactlyWhenPublishable | internal/subscription/service.go:420-476 | Builder meets checker: the aggregate of a built snapshot passes both persistent-state validators exactly when sessions and lifetime are in order, no node is masked, one is eligible, and the printed body is within the limit |
| Acceptance.RendersExactly | internal/subscription/subscription.go:53-94 | Built nodes render exactly if the address parses, one of them is eligible and the printed body is within the limit |
| Acceptance.PublishableIsAccepted | internal/subscription/service.go:753-868 | A publishable snapshot is accepted |
| Acceptance.AcceptedIsPublishable | internal/subscription/service.go:753-868 | An accepted snapshot was publishable |
| Acceptance.LastGoodAccepted | internal/subscription/service.go:485-506 | The updated record passes both checks, whether its body is new or kept with its fetch proof |
| Acceptance.ActiveMatchesStored | internal/subscription/service.go:800-831 | Stored nodes, selectors and active session agree |
| Acceptance.PlanFacts | internal/state/types.go:697-724 | A plan binds the account, and keeps the generation for the same account |
| Acceptance.NothingMasked | internal/subscription/service.go:870-917 | A body that both renderings agree on hides no node |
| Acceptance.MaskedCount | internal/subscription/service.go:870-917 | A node of unknown profile makes the stored rendering one line longer |
| Bodies.RenderedBodyAccepted | internal/state/types.go:845-882 | A body rendered from derived nodes passes the structural check and renders again at its own address |
| Bodies.BodyOffers | internal/subscription/subscription.go:53-94 | The rendered body decodes to one line for each eligible node that is not excluded, each line parsing to the selector and password issued for the canonical identity of the node, the given address, and the name of the node, and no other line |
| Bodies.PrintedBody | internal/subscription/subscription.go:81-93 | Decoding and splitting a body gives its lines, all valid |
| Bodies.EligibleCount | internal/state/types.go:858-870 | The line count is the count of eligible nodes |
| Rendering.Render | internal/subscription/subscription.go:53-94 | Filter, sort, print and encode with the error cases; for links whose equal selectors have equal passwords the result is a function of the links, otherwise of an arrangement of the ties |
| Rendering.RenderedOrderFree | internal/subscription/subscription.go:72-80 | The body does not depend on the order of the links |
| Rendering.AnySortAgrees | internal/subscription/subscription.go:72-80 | Any unstable sort of derived links gives the same list |
| Rendering.SortedByGroup | internal/subscription/subscription.go:71-79 | The links stand in the order of group, name and selector |
| Foundations.StringLessExactly | internal/subscription/subscription.go:71-79 | The order of two texts: that of the first characters that differ, or the shorter first |
| Rendering.TextSplits | internal/subscription/subscription.go:81-89 | The printed text splits back into its lines |
| Durable.ValidateState | internal/state/types.go:742-813 | The structural loop check accepts exactly the valid states |
| Durable.ValidateNodes | internal/state/types.go:815-834 | Valid nodes without repeated identifiers |
| Durable.ValidateBody | internal/state/types.go:845-882 | The body decodes to valid lines in the right number |
| Durable.ValidateAggregate | internal/subscription/service.go:753-833 | The deriving check accepts exactly the aggregates whose body, nodes and session agree |
| Durable.ValidateActive | internal/subscription/service.go:800-831 | The session check accepts exactly the matching sessions |
| Durable.ValidateServed | internal/subscription/service.go:855-868 | Accepts exactly the aggregates that render at the served address |
| Durable.ValidateReferences | internal/subscription/service.go:824-830 | Every live reference is borne by an active node |
| Durable.RenderPersisted | internal/subscription/service.go:891-917 | Renders stored nodes, with or without legacy exclusions; an underivable node fails it |
| Durable.ValidateLine | internal/state/types.go:871-880 | Accepts exactly links that print as they parse and have all parts |
| Durable.ValidateSessions | internal/state/types.go:196-204 | Both sessions persistable, each extension in the form of its profile |
| Durable.ShownAddress | internal/subscription/service.go:835-853 | The one address that every line of a body shows |
| Durable.PersistedLinksCoherent | internal/subscription/service.go:899-917 | Equal selectors have equal passwords |
| FetchProof.ProofIsExact | internal/subscription/service.go:706-748 | In every reachable state the stored aggregate passes both checks and the cache shows it, or, behind a move that failed its final check, the body of the same nodes at an earlier address; starting from an exact aggregate, a stored proof is the hash of the stored body under the current generation, and a reload is recommended exactly when no fetch of the served body is on record |
| FetchProof.ServedBodyOffers | internal/subscription/service.go:319-337 | So a client reads in the served body exactly the stored nodes, with the credentials that admission accepts |
| FetchProof.ShownUnlessStalled | internal/subscription/service.go:157-176 | Only a move that fails its final check leaves the cache behind the record |
| FetchProof.ProofNotCompared | internal/subscription/service.go:753-833 | Neither check compares a stored proof with the body: any hash of the right length passes |
| FetchProof.StepKeepsExact | internal/subscription/service.go:130-748 | Every critical section keeps a proof the hash of its body |
| FetchProof.MoveFailsExactly | internal/subscription/service.go:157-176 | A move writes, succeeds or fails at its end exactly as its two clock readings say: each passes unless it comes before the expiry of a stored session that leaves some node without one, and so before the last full check |
| FetchProof.CheckedAgain | internal/subscription/service.go:855-868 | What has passed the full check once passes both checks at another reading, earlier or later, exactly unless that comes before the expiry of a stored session that leaves some node without one |
| Setback.MoveStalls | internal/subscription/service.go:157-176 | A concrete aggregate, move and pair of readings for which the write passes and the final check fails |
| Setback.FlagStaysSet | internal/subscription/service.go:319-337 | A concrete run with no hash collision: after such a move and a move back, the served body has no proof, the flag is set, nobody is on the way, and no claim is accepted |
| Setback.SampleLawful | internal/subscription/subscription.go:53-94 | A concrete platform has all the laws that the proofs assume, so they do not contradict each other |
| FetchProof.ClaimNeverOrphaned | internal/subscription/service.go:319-337 | Without accidental hash collisions a set flag always means that a fetcher is on its way for the served body or its proof is there, exactly if no step brings back the body that a cache left behind by a failed move still shows; so without failed moves always |
| FetchProof.RepublishKeepsProof | internal/subscription/service.go:485-506 | Republishing the same nodes in any order keeps body, creation time and proof |
| FetchProof.StepPreserves | internal/subscription/service.go:130-748 | Every critical section of the service keeps that |
| FetchProof.MovedIsServed | internal/subscription/service.go:241-268 | A valid body moved to another address is a valid body there |
| FetchProof.ValidLater | internal/subscription/service.go:855-868 | What is valid stays valid as time passes |
| Subscriptions.Service.CommitRuntimeSnapshot | internal/subscription/service.go:420-476 | Writes the aggregate of the plan exactly when sessions, plan, rendering and both checks allow |
| Subscriptions.Service.NextAggregate | internal/subscription/service.go:426-457 | The candidate: planned generation, record and session |
| Subscriptions.Service.UpdateLastGood | internal/subscription/service.go:485-506 | An unchanged body keeps creation time and proof, any other starts without |
| Subscriptions.Service.RestoreAggregate | internal/subscription/service.go:462-474 | Writes the prior aggregate back and serves it, or changes nothing |
| Subscriptions.Service.ClaimFetch | internal/subscription/service.go:706-715 | Claims a fetch of exactly the served body, once |
| Subscriptions.Service.RecordFetch | internal/subscription/service.go:717-748 | Records the proof if body, generation and claim are still the same |
| Subscriptions.Service.Reconcile | internal/subscription/service.go:241-311 | Renders the body again for an address if its nodes explain it |
| Subscriptions.Service.ReconcileAndPrime | internal/subscription/service.go:179-215 | At startup the address is chosen, and the stored body is moved to it, checked at a reading of its own and served, exactly when that is possible |
| Subscriptions.Service.PrimeCache | internal/subscription/service.go:319-337 | The cache shows what is stored; a proof counts only for the stored body under the current generation |
| Subscriptions.RenderedAddress | internal/subscription/service.go:286-311 | The address that every line of a body has in common |
| Subscriptions.Service.SetSocksAddress | internal/subscription/service.go:130-177 | Succeeds exactly when the body can be rendered there, written at the first reading and checked at the second; then record, cache and address move together. A failure leaves everything, but for a failing final check, which leaves the new address and the moved record in place |
| Subscriptions.Store.Write | internal/state/store.go:719-799 | Replaces the whole state by a valid one on a healthy disk, or leaves it |
| Subscriptions.NewService | internal/subscription/service.go:107-126 | A service comes up exactly on an aggregate that can be served at the listener address, or at the concrete one that a wildcard listener has shown |
| Subscriptions.RenderNodes | internal/subscription/service.go:870-889 | Renders exactly the node lists that derive and render |
| Uot.TransmissionDecodes | internal/kuaifan/wifiin/udp.go:42-133 | Every sequence of accepted datagrams, with keepalives anywhere, decodes to the same datagrams and flows |
| Uot.FrameDecodes | internal/kuaifan/wifiin/udp.go:42-133 | A frame decodes to its datagram and flow, leaving the rest |
| Uot.UotWriter.WriteSocksDatagram | internal/kuaifan/wifiin/udp.go:42-78 | Writes exactly the frame through a short-writing sink, a prefix of it on a stream error, and nothing for a refused datagram |
| Uot.UotReader.ReadSocksDatagram | internal/kuaifan/wifiin/udp.go:97-133 | Under any fragmentation returns the next datagram of the stream, which has the form of section 7 of RFC 1928, and leaves the rest; each error has its cause and leaves the destination alone; a stream error comes exactly when it precedes the last byte of the frame |
| Uot.ArrivalDecodes | internal/kuaifan/wifiin/udp.go:97-133 | A body that arrives is the next frame of the bytes; without errors a complete frame arrives |
| Uot.KeepalivesSkipped | internal/kuaifan/wifiin/udp.go:103-107 | Zero-length frames are skipped |
| Uot.AcceptedSizes | internal/kuaifan/wifiin/udp.go:56-64 | An accepted datagram is at most 65536 bytes long, and one of that length exists |
| Uot.AddressExactly | internal/kuaifan/wifiin/udp.go:135-161 | Exactly when an address is recognised and how long it is, for IPv4, IPv6 and domain names |
| Uot.FrameLayout | internal/kuaifan/wifiin/udp.go:66-76 | Every byte of a frame: length, address, flow number and payload |
| UdpRelay.UdpAssociation.ClientToUot | internal/socks/udp.go:134-151 | Writes the frames of exactly the packets that pass, in order, or a prefix of their bytes on a stream error; truncated, stray and unframeable packets are dropped |
| UdpRelay.UdpAssociation.UotToClient | internal/socks/udp.go:153-171 | Returns exactly the datagrams of its flow that arrive, in order, until a read or a write to the client fails |
| UdpRelay.UdpAssociation.AcceptSource | internal/socks/udp.go:69-82 | Accepts the host of the control connection only, and one port of it, which the first accepted packet settles |
| UdpRelay.EchoReturns | internal/socks/udp.go:134-171 | Writer, sink, stream and reader together: an upstream that sends back what it got, cut anywhere, returns to the client exactly the datagrams that passed, in order, whole and once |
| UdpRelay.SentArrives | internal/socks/udp.go:153-171 | Any accepted datagrams sent with keepalives anywhere and cut anywhere arrive as sent, up to the first that is too long for the buffer |
| UdpRelay.ArrivalsDecode | internal/socks/udp.go:153-171 | Without read errors repeated reads bring in what the bytes decode to, up to the first datagram that is too long |
| UdpRelay.OneSource | internal/socks/udp.go:69-82 | Whatever passes comes from the client host and from one and the same port, and a settled port stays |
| Streams.ReadFull | internal/kuaifan/wifiin/udp.go:101-114 | Reads exactly the wanted bytes or stops short with the error that came first; the end of the stream after some bytes is an unexpected one |
| Streams.ErrorWithLastByte | internal/kuaifan/wifiin/udp.go:101-114 | An error is dropped exactly when the chunk that completes the wanted bytes ends there and carries it |
| Handshake.HandshakeReader.ReadAck | internal/kuaifan/wifiin/tcp.go:206-224 | Computes that under any fragmentation; only an accepted acknowledgement is marked consumed |
| Handshake.HandshakeReader.Read | internal/kuaifan/wifiin/tcp.go:240-255 | Reads like an upstream of the pending bytes, then the deferred error, then the rest |
| Handshake.HandshakeReader.ReadServerIv | internal/kuaifan/wifiin/tcp.go:227-236 | The next sixteen bytes, what is left and the error of a failure, as a function of what the reader held |
| Handshake.IvErrorDropped | internal/kuaifan/wifiin/tcp.go:227-236 | Reading the IV drops an error exactly when fewer than sixteen bytes are pending, no deferred error waits, and the upstream chunk that completes the IV ends there and carries the error |
| Handshake.IvErrorLost | internal/kuaifan/wifiin/tcp.go:227-236 | An input on which one is dropped: the acknowledgement alone, then the IV with an error; afterwards there is a plain end of the stream |
| Handshake.AcknowledgedEvents | internal/kuaifan/wifiin/tcp.go:206-224 | An accepted acknowledgement consumes three zero bytes and nothing else, a wrong one stays, an error overtakes fewer than three bytes |
| Handshake.HandshakeReader.Fill | internal/kuaifan/wifiin/tcp.go:257-279 | Adds bytes behind the pending ones and defers an error that came with them |
| Handshake.StreamReader.Read | internal/socks/server.go:459-469 | Hands out the decryption of the ciphertext it took, and adds itself to the conversation |
| Handshake.ReadsPartition | internal/kuaifan/wifiin/tcp.go:240-279 | In every run of reads, what is handed out followed by what is left is what was to come: nothing lost or repeated, errors behind their bytes, the last deferred error included |
| Handshake.ConversationDecrypts | internal/kuaifan/wifiin/tcp.go:240-279 | In every run of decrypting reads the delivered text is the decryption of the bytes handed out, and with the decryption of what is left that of all that was to come |
| Handshake.StreamReader.Delivered | internal/socks/server.go:459-469 | The same of the reader itself, at any time after the IV |
| Handshake.QuietEvents | internal/kuaifan/wifiin/tcp.go:240-279 | The cutting of an error-free upstream does not show |
| LazyInbound.DeadlineDiscipline | internal/kuaifan/wifiin/lazy.go:64-130 | In every interleaving the deadline is set at most once, only after a writer began, and is clear for good after initialisation unless the connection is closed |
| LazyInbound.DeadlineOnlyByWriter | internal/kuaifan/wifiin/lazy.go:64-76 | A deadline appears only in the step of a writer, before the IV is ready |
| LazyInbound.FirstWriterArms | internal/kuaifan/wifiin/lazy.go:64-76 | The first writer before a usable IV does set the deadline, and no later one moves it |
| LazyInbound.LazyInboundReader.ArmForOutbound | internal/kuaifan/wifiin/lazy.go:64-76 | The arming step, under the mutex |
| LazyInbound.LazyInboundReader.BeginInitialize | internal/kuaifan/wifiin/lazy.go:99-106 | Only the first reader initialises |
| LazyInbound.LazyInboundReader.AcceptIv | internal/kuaifan/wifiin/lazy.go:107-121 | Marks the IV ready and remembers whether a deadline is to be cleared |
| LazyInbound.LazyInboundReader.FinishInitialize | internal/kuaifan/wifiin/lazy.go:122-129 | Clears the deadline; a closed connection is tolerated |
| BrowserSessions.RunsAreLimited | internal/web/security.go:131-461 | In every run sessions and reservations stay within the limit, the logins of a session that were admitted and not yet finished are never more than one, and between successes no half-open minute holds more than nine counted failures |
| BrowserSessions.SaneThroughout | internal/web/security.go:131-461 | Every run of store operations keeps the invariant |
| BrowserSessions.OpKeeps | internal/web/security.go:131-461 | So does every single operation |
| BrowserSessions.ChannelsCloseOnce | internal/web/security.go:255-263 | Ending a session closes a channel that nobody has closed before |
| BrowserSessions.ClosedForGood | internal/web/security.go:255-263 | A closed channel belongs to no active session ever after |
| BrowserSessions.SessionStore.MakeRoom | internal/web/security.go:146-167 | The reserving half of create |
| BrowserSessions.ReserveExactly | internal/web/security.go:146-167 | A place is reserved exactly while live sessions and reservations are below the limit and the token is new |
| BrowserSessions.SessionStore.Finalize | internal/web/security.go:169-183 | The finalising half: active exactly if saved and not expired |
| BrowserSessions.SettleExactly | internal/web/security.go:169-183 | The new session has its token, secret, expiry and an open channel of its own, and the others stay |
| BrowserSessions.SessionStore.Restore | internal/web/security.go:115-129 | Takes a well-formed, unexpired, new session within the limit |
| BrowserSessions.SessionStore.Check | internal/web/security.go:188-207 | Finds an active session and ends an expired one |
| BrowserSessions.SessionStore.Matches | internal/web/security.go:237-253 | True exactly for the very session that was started with, still active, its channel open |
| BrowserSessions.SessionStore.Revoke | internal/web/security.go:209-222 | Ends a session after its stored copy is gone |
| BrowserSessions.SessionStore.RemoveSession | internal/web/security.go:255-263 | Removes session and record and closes its channel once |
| BrowserSessions.SessionStore.Prune | internal/web/security.go:400-417 | Ends exactly the expired sessions and trims the records |
| BrowserSessions.SessionStore.TrimAttempts | internal/web/security.go:440-461 | Drops exactly the records whose window is over and that are not in flight |
| BrowserSessions.SessionStore.StartLogin | internal/web/security.go:321-349 | Inactive, busy, limited or admitted, with the slot taken |
| BrowserSessions.SessionStore.FinishLogin | internal/web/security.go:353-398 | Releases the slot, counts a failure, forgets on success, never revives a removed session |
| BrowserSessions.SuccessForgets | internal/web/security.go:353-398 | After a success no failure is remembered and the next login is admitted |
| BrowserSessions.SessionStore.NoteFailure | internal/web/security.go:376-397 | Opens a window or counts in it |
| LoginWindows.AtMostNinePerMinute | internal/web/security.go:353-398 | A well-spaced history has at most nine entries in a half-open minute |
| LoginWindows.NineIsReached | internal/web/security.go:321-398 | Nine is reached: one failure, four at the end of its window, five right after it |
| LoginWindows.FailureTracks | internal/web/security.go:376-397 | Counting a failure keeps history and record in step |
| Codec.DecodeEncode | internal/kuaifan/codec.go:91-128 | Every text within the limit decodes to itself with no size check firing; a longer one is refused |
| Codec.EncodeDecode | internal/kuaifan/codec.go:105-128 | What decodes is the encryption of its text; the body comes back exactly when it is what the encoder writes for its ciphertext |
| Codec.DecodesExactly | internal/kuaifan/codec.go:105-128 | Exactly the bodies of a possible size that are the ciphertext of a text within the limit decode, each to that text |
| Codec.RefusesExactly | internal/kuaifan/codec.go:105-128 | The cause of each refusal: no ciphertext, or one of no padded text; the rest is too large |
| Codec.UnpadPad | internal/kuaifan/codec.go:159-186 | Unpadding undoes padding (section 6.3 of RFC 5652) |
| Codec.PadUnpad | internal/kuaifan/codec.go:159-186 | Padding undoes unpadding |
| Codec.PadBlock | internal/kuaifan/codec.go:159-167 | The loop pads as specified |
| Codec.UnpadBlock | internal/kuaifan/codec.go:169-186 | The comparison without early exit accepts exactly padded data |
| Codec.DecryptEncrypt | internal/kuaifan/codec.go:98-98 | Chained decryption undoes chained encryption |
| Codec.EncryptDecrypt | internal/kuaifan/codec.go:119-119 | And the other way round |
| Codec.DeriveKey | internal/kuaifan/codec.go:191-215 | The nested loop computes PBKDF2 (section 5.2 of RFC 8018), the block number written most significant byte first |
| Codec.FirstLink | internal/kuaifan/codec.go:191-215 | The first link of a block covers the salt and the four bytes of its number, most significant first |
| Codec.FirstBlock | internal/kuaifan/codec.go:191-215 | One round of a short key is the tag of the salt followed by 0, 0, 0, 1 |
| Codec.WordExactly | internal/kuaifan/codec.go:200 | The four bytes of a block number read back as that number, most significant first |
| Codec.BitsExactly | internal/kuaifan/codec.go:169-186 | Exclusive or and or, digit by digit |
| Codec.KeysExtend | internal/kuaifan/codec.go:191-215 | A shorter key is the beginning of a longer one |
| Sampling.Unbiased | internal/kuaifan/profile/profile.go:56-84 | For every n up to the sample space each result has the same positive number of accepted samples |
| Sampling.NothingBeyondSpace | internal/kuaifan/profile/profile.go:73-83 | For larger n no sample is ever accepted |
| Sampling.RandomInt | internal/kuaifan/profile/profile.go:56-84 | The result is the first accepted sample of the stream, below n; a failure means none came |
| Sampling.SampleOfValue | internal/kuaifan/profile/profile.go:79-79 | Every number of the space is the value of a sample |
| Sampling.ValueOfSample | internal/kuaifan/profile/profile.go:79-79 | And of only that one |
| Sampling.SplitInside | internal/kuaifan/profile/profile.go:99-114 | Every draw splits strictly inside the joined string |
| Sampling.SplitPastAlphabet | internal/kuaifan/profile/profile.go:112-114 | Some draw splits past the alphabet exactly when the joined text has more than 65 characters |
| Sampling.ComputeVerify | internal/kuaifan/profile/profile.go:86-144 | The verifier has the stated form; beyond bad input and a failing source it is refused exactly for a draw that splits past the alphabet, which no text of at most 65 characters has |
| Sampling.PickedExactly | internal/kuaifan/profile/profile.go:115-129 | Which four characters the digits pick: from the front and the back of either half |
| Sampling.Compose | internal/kuaifan/profile/profile.go:100-143 | The same for checked input |

## Left out

- SQL text, schema migration, file permissions: the store is one value that is replaced as a whole or not at all.
- HTTP routing, JSON, event streams, diagnostics and the user interface.
- Parsing of the SOCKS greeting, credentials and request, the domain or address asked for, and the header that carries them upstream: the model of a handler starts with the credentials and records the node and the session it dials with.
- Dialling, provider requests, retries and response parsing, with `nodesFromLines`: sessions, authorities and node lists of the two profiles are arguments; a failed request is a missing answer.
- AES, MD5, SHA, HMAC, Argon2, IDNA, URL and Base64 internals: unknown functions with stated laws. That two inputs never share a tag is not assumed.
- Widths of generation and lease counters: they are 64-bit words in the program and unbounded here.
- UTF-8 validity of session fields and of other text; of case folding outside ASCII only what touches the cipher name.
- Fields that no decision reads: model, weight, automatic choice and UDP health of nodes, preferences, installation identifier, Argon2 parameters.
- Refresh schedules, event publication, and the decision between the two halves of a heartbeat, which is taken without the lock.
- Selector builders other than the production coordinator, which serves exactly one credential generation.
- What makes an address concrete for a wildcard listener (an unknown relation of two addresses); `PublishAccount`, `PublishSnapshot` and `PublishCurrent`, which production does not call.
- The access-token limiter, and the stored copies of browser sessions.
- Times before the zero time.
- The four attempts of creating a browser session to draw a fresh token, and a failing random source there: the token is an argument and the refusal of a used one is modelled.
- Several clock readings inside one validation, and between the checks inside one store update: each of these uses a single reading.
- Bitwise exclusive or and or, which the codec applies to bytes, are defined here by binary digits.
- Admission.AdmittedTunnelIsAuthorised: the relay after the success reply may outlive the authority, as the program intends.
- RuntimeFacade.CompletesExactly: the line lists of the provider mark every node with its profile (`nodesFromLines`, which is not part of this model).
- FetchProof.ClaimNeverOrphaned: holds for runs in which two successive bodies do not share a hash.
- BrowserSessions.RunsAreLimited: assumes that the random token of an ended session is not drawn again while a login of it is unfinished.
- RuntimeFacade.Runtime.ClaimFetch: a claim that falls inside a publication is a step of `FetchProof`, not a call of this class.
- UdpRelay.UdpAssociation.UotToClient: when the other direction settles the client's port is an argument; opening and closing the sockets is left out.
- Startup.StartUp: two processes that create the first aggregate at the same time.
- FetchProof.ProofIsExact: exactness of the proof is for runs from an exact first aggregate, as every start without a proof has.
