# Verified model of the Bitwarden panel's helpers

A Dafny model of the parts of this repository that hold secrets and decide what may be done
with them, with proofs about every run, input or interleaving rather than about examples.

| component | files |
|---|---|
| SSH agent: key store, approvals, event loop | `KeyStore`, `Approvals`, `Observer`, `Agent`, `AgentInvariant`, `AgentArms`, `AgentRelease`, `AgentDrain`, `AgentSafety`, `AgentTheorems`, `AgentAnswers`, `AgentLoad`, `AgentSettled`, `AgentSends`, `AgentSpill`, `AgentBurst`, `AgentTimely`, `AgentWitness`, `AgentTrace`, `AgentListings`, `AgentSources`, `AgentDenials`, `AgentWindows`, `AgentOutcomes`, `AgentReleased`, and the objects in `KeyStoreObject`, `ApprovalsObject`, `AgentObject` |
| wire format, connections, FIFO, base64 | `LengthPrefix`, `Wire`, `Connection`, `Fifo`, `Base64` |
| quick-unlock envelope | `Envelope`, `EnvelopeBinding`, `EnvelopeObject`, `EnvelopeRules` |
| vault helper: redaction, store, runs, kill list | `Redaction`, `VaultStore`, `VaultReads`, `VaultRuns`, `VaultHelper`, `KillList` |
| panel: supervisor of the agent, one-time codes | `Supervisor`, `Base32`, `Totp` |
| shared | `Base`, `Decimal` |

`dafny verify dfyconfig.toml` checks everything.

## How it is put together

Where the source is an object that changes, the model has a class with those fields and one
method per operation, with the source's loops. Each method is proved equal to a function on
values, and the theorems are about runs of those functions.

The agent is the largest part. `AgentLoop` owns the tables; its `Turn` is one turn of the
event loop. The specification is not the loop again but a reference monitor (`Observer`): it
reads only what passes through the agent's interfaces, and `Legal` says which signature, grant
and prompt would be justified given what was seen. The theorem is that every run's log is
accepted. The invariant behind it (`Core`) ties each table to the log.

A function that the code and its specification share would say nothing by itself. What each of
them decides is therefore stated once more with its limits and cases written out, apart from the
code: the `...Exactly` and `...Exact` lemmas, `AgentOutcomes`, `AgentReleased` and `EnvelopeRules`.

Assumptions of the agent model:

- A run starts with `hello`, as the supervisor makes sure (BitwardenModel.js:6320-6324).
- Every clock reading is an arbitrary number; nothing is assumed about their order, except where
  a lemma says so: `WindowExact` for a clock that never goes back, `ReleaseOutcome` for one that
  takes less than two minutes over one release.
- Sending to the panel succeeds. `EventFitsExactly` says when one event fits the panel's channel:
  always, but for a tick that has to withdraw more lapsed requests than the channel has room for.
  `TimelyRunsFit` says that cannot happen while the clock ticks within each request lifetime.
- Hash maps that the source drains in no particular order are drained in ascending order.
- The kind of a sign request is computed on the connection that delivers it.
- Signing, key parsing and JSON parsing are inputs or uninterpreted functions.

## What the proofs turned up

- `CONTROL_OUTPUT_CAPACITY` is explained as two messages per held request
  (agent/src/main.rs:243-248). A held request can cost three: withdrawn, prompted again, and
  settled by the grant a later one opens. `SevenForThree` is a run that sends seven for three.
  `SpillIsNeeded` and `SpillsExactly` say when two each are exceeded; the most is max(2n, 3n - 2),
  and the slack covers it.
- One event can outgrow that capacity all the same. Pending requests are withdrawn only by a tick,
  so if the clock jumps between requests any number can lapse before it comes; `TickOverruns` is
  such a run. The tick has to lose to a client in the loop's `select` every time for that.
- A rejected payload is said not to wipe a live set (agent/src/load.rs:139-141). That holds only
  of payloads refused before `begin_load` (`RefusalSparesExactly`). An item over a limit is refused
  after it, when the private keys are already gone (`LiveKeysWiped`), and the caller locks the
  store on any failure (`RefusedLoadLocks`).
- `aad` is said never to encode distinct lists the same (unlock-key/src/lib.rs:604-605). That
  holds for parts under 4 GiB, which every caller's limits guarantee. In general the boundary is a
  part of 2^32 - 1 bytes: `AadAmbiguousExactly` says which lists share their encoding.
- Putting back an old wrap is not noticed: the data key never changes, so a replaced PIN or token
  opens the current password again (`RollbackOpens`).
- The vault generation counter wraps, so a run that outlives exactly a multiple of 2^64 forgets
  would be taken for a current one.
- The two base32 decoders can differ on secrets with a character outside ASCII that upper-cases
  to text with a letter of the alphabet, such as a sharp s. They agree all the same exactly when
  there is a single such letter and the bits it shifts are dropped or repeat it
  (`SameSecretExactly`).
- The supervisor asks for a second helper if it is enabled again before one it has stopped is
  gone; `OneAtATime` says that is the only way.

## Model

| member | source | states |
|---|---|---|
| KeyStoreObject.StateTracker.constructor | agent/src/state.rs:26-31 | starts logged out at epoch 0 |
| KeyStoreObject.StateTracker.BeginLoad | agent/src/state.rs:33-40 | a load is begun only at a strictly newer epoch, and then the state is Loading at that epoch; otherwise nothing changes |
| KeyStoreObject.StateTracker.Publish | agent/src/state.rs:42-48 | only the load of the current epoch, while Loading, is published; otherwise nothing changes |
| KeyStoreObject.StateTracker.Lock | agent/src/state.rs:50-58 | the epoch becomes the larger of the two and the state is locked, cached or empty |
| KeyStoreObject.StateTracker.Logout | agent/src/state.rs:60-63 | the epoch becomes the larger of the two and the state is logged out |
| KeyStoreObject.CandidateLoad.Add | agent/src/keystore.rs:116-206 | an item is Added if and only if it is within the limits (128 items, 64 KiB of PEM, a 256-byte id), wants no reprompt, its PEM is a supported valid key with a blob and an OpenSSH form, the vault's blob and fingerprint are the key's own, and no identity has that blob; otherwise it is refused for the first limit it exceeds, which poisons the candidate, or skipped for what is wrong; what is added is that item's identity and key, and the candidate stays valid |
| KeyStoreModel.AddKeepsCandidate | agent/src/keystore.rs:116-198 | adding any item to a valid candidate leaves it valid, and a refusal always marks it failed |
| KeyStoreObject.CandidateLoad.Shorten | agent/src/keystore.rs:135-143 | a long name is cut to its longest prefix within the limit that ends on a UTF-8 character boundary |
| KeyStoreModel.LastBoundary | agent/src/keystore.rs:137-141 | the position found is a character boundary and none lies between it and the limit |
| KeyStoreObject.CandidateLoad.Check | agent/src/keystore.rs:144-186 | no defect if and only if the item is loadable, and otherwise the code of the first check that fails, with everything checked before it in order |
| KeyStoreModel.AddExact | agent/src/keystore.rs:116-198 | the same of the value model for every candidate and item, without naming the checks' own code |
| KeyStoreModel.OneCode | agent/src/keystore.rs:144-186 | the skip codes exclude one another, so each is given exactly for what it says |
| KeyStoreObject.KeyStore.BeginLoad | agent/src/keystore.rs:230-250 | stale epochs change nothing; otherwise the private set is dropped before the size check, and a candidate is returned empty and valid |
| KeyStoreObject.KeyStore.Publish | agent/src/keystore.rs:253-266 | both sets are replaced together or nothing changes, and the store stays valid |
| KeyStoreObject.KeyStore.Lock | agent/src/keystore.rs:269-272 | private keys are gone, public ones stay, the store stays valid |
| KeyStoreObject.KeyStore.Logout | agent/src/keystore.rs:275-279 | both sets are gone |
| KeyStoreObject.KeyStore.Find | agent/src/keystore.rs:298-304 | the search finds the key of exactly the blob asked for, with every private index in range |
| KeyStoreObject.KeyStore.Authorize | agent/src/keystore.rs:294-305 | a permit is issued if and only if the store is unlocked and holds the blob |
| KeyStoreObject.KeyStore.Sign | agent/src/keystore.rs:308-321 | a signature is made only at the permit's own unlocked epoch, by the key of the permit's blob |
| KeyStoreModel.FindKeyExact | agent/src/keystore.rs:298-320 | in a valid store the search succeeds exactly for the loaded blobs and returns that blob's own key |
| KeyStoreModel.StoreStaysValid | agent/src/keystore.rs:230-279 | after any operations private keys exist only while unlocked, each at the index of its own distinct public blob, and the epoch has not gone back |
| KeyStoreModel.EpochWindow | agent/src/state.rs:33-67 | if the store is unlocked at one epoch before and after any operations, none of them changed anything: one contiguous interval per epoch |
| KeyStoreModel.PermitWindow | agent/src/keystore.rs:294-321 | a permit signs later only if nothing happened since it was issued, and with the key of the blob it was issued for |
| KeyStoreModel.OverForGood | agent/src/state.rs:33-67 | an epoch whose unlocked interval has ended never comes back, whatever is done |
| ApprovalObject.ApprovalManager.Expire | agent/src/approvals.rs:260-264 | exactly the requests and grants past their deadline are dropped, in order |
| Base.KeepInOrder | agent/src/approvals.rs:260-264 | what retaining keeps are exactly the elements that satisfy the test, in their order |
| ApprovalObject.ApprovalManager.Submit | agent/src/approvals.rs:136-175 | another user is refused; a grant answers only if it is unexpired and covers epoch, key, kind, user and program; otherwise the request is queued unless four wait or the ids have run out |
| ApprovalObject.ApprovalManager.Approve | agent/src/approvals.rs:177-221 | an authorization is returned only for a queued, unexpired request with that id, which leaves the queue; a grant is opened only for a window and a grantable request (its end is pinned by GrantsJustified and WindowExact) |
| ApprovalObject.ApprovalManager.ReleaseGranted | agent/src/approvals.rs:228-254 | what a live grant covers leaves the queue and is returned in order; nothing left in the queue is covered |
| ApprovalObject.ApprovalManager.Disconnect | agent/src/approvals.rs:256-258 | exactly the request with that id is gone |
| ApprovalObject.ApprovalManager.InvalidateAll | agent/src/approvals.rs:268-271 | queue and grants are empty, the counters stay |
| ApprovalObject.ApprovalManager.RevokeGrant | agent/src/approvals.rs:273-275 | no grant with that id is left, the others are |
| ApprovalObject.ApprovalManager.RevokeAllGrants | agent/src/approvals.rs:277-279 | no grant is left, the queue is untouched |
| ApprovalObject.ApprovalManager.Reserve | agent/src/approvals.rs:288-295 | the next id is handed out once, or none if the counter is at its end |
| AgentObject.AgentLoop.constructor | agent/src/main.rs:326-344 | the state the loop starts in |
| AgentObject.AgentLoop.HandleClient | agent/src/main.rs:530-717 | a delivered request is answered, queued, held or joined to a held listing exactly as the model says |
| AgentObject.AgentLoop.HandleListing | agent/src/main.rs:543-595 | listings are answered from the public cache or held for an unlock, as the model says (ListingOutcome says which, and with what) |
| AgentObject.AgentLoop.HoldSign | agent/src/main.rs:605-659 | behind a closed gate a known key of the right user is held and the panel asked to unlock, within the four shared places |
| AgentObject.AgentLoop.SubmitSign | agent/src/main.rs:660-717 | a grant answers at once, otherwise the panel is prompted and the reply is kept under the same id |
| AgentObject.AgentLoop.OnApprove | agent/src/main.rs:374-392 | a held request records the approval, a pending one is answered once, and a window settles what it covers |
| AgentObject.AgentLoop.SettleGranted | agent/src/main.rs:837-859 | every queued request a grant covers is answered and its prompt withdrawn |
| AgentObject.AgentLoop.ReleaseHeld | agent/src/main.rs:724-833 | every held request, in the order raised, goes through the ordinary approval path, consuming an approval given ahead of the load |
| AgentObject.AgentLoop.CancelHeld | agent/src/main.rs:892-909 | every held request is failed and its prompt withdrawn |
| AgentObject.AgentLoop.FailPending | agent/src/main.rs:959-963 | every pending request is failed |
| AgentObject.AgentLoop.ReleaseListing | agent/src/main.rs:863-889 | every waiting client gets the same listing and the prompt is withdrawn (ListingsAreTrue says what it lists) |
| AgentObject.AgentLoop.Decode | agent/src/load.rs:142-175 | the nonce is checked before the store is touched; the candidate holds the items in order or is refused at the first limit |
| AgentObject.AgentLoop.FinishLoad | agent/src/main.rs:1005-1073 | a ready load is published and announced key by key, or the store is locked and the gate stays shut |
| AgentObject.AgentLoop.SettleLoad | agent/src/main.rs:982-1003 | a published load releases what was held, a refused one fails it |
| AgentObject.AgentLoop.OnControl | agent/src/main.rs:346-461 | one panel message, arm by arm |
| AgentObject.AgentLoop.OnLoadBegin | agent/src/main.rs:417-436 | a second load is a protocol error; otherwise the gate shuts and everything queued is failed before the nonce is looked at |
| AgentObject.AgentLoop.OnLoadEnd | agent/src/main.rs:437-460 | only the active load may end; a failed one locks and fails what is held, an ok one starts the grace period and settles |
| AgentObject.AgentLoop.OnDeny | agent/src/main.rs:393-401 | the request is failed wherever it waits, without a withdrawal message; a held listing of that id is released with one (DenialsTakeEffect says so outright) |
| AgentObject.AgentLoop.OnPayload | agent/src/main.rs:464-478 | a payload counts only for the active load of its epoch |
| AgentObject.AgentLoop.OnTick | agent/src/main.rs:479-513 | expiry of queue, grants, load, held requests and listings, and the grant announcement |
| AgentObject.AgentLoop.Finish | agent/src/main.rs:517-522 | leaving the loop answers everything and drops the keys |
| AgentObject.AgentLoop.Turn | agent/src/main.rs:343-515 | one turn of the loop is exactly one step of the model, for every event and state |
| AgentObject.Serve | agent/src/main.rs:314-527 | for every sequence of events starting with hello, the object's log is accepted by the reference monitor and its tables satisfy the invariant |
| AgentSafety.StepKeeps | agent/src/main.rs:343-515 | every event, in every state satisfying the invariant, leads to a state satisfying it; the handshake, the user and the store never go back |
| AgentTheorems.RunKeeps | agent/src/main.rs:343-515 | the invariant holds after every run that starts with hello |
| AgentTheorems.SignaturesJustified | agent/src/main.rs:1075-1086 | every signature in every run: the request's own key, data and user, a published key not since locked away, and an approval of that very request or an open, unexpired, unrevoked grant of the same epoch, key, kind, user and program; for forwarded or unreadable requests always the former |
| AgentTheorems.GrantsJustified | agent/src/approvals.rs:192-216 | every grant ever opened came from approving a grantable request for a window, at the current epoch, and covers that request's key, kind and peer until that many seconds later, fifteen minutes at most, on a 64-bit millisecond clock, or with no end if until screen lock |
| AgentWindows.GrantsAreHeld | agent/src/approvals.rs:260-279 | at every point of every run, on every clock, a grant opened and not revoked or voided since is held, unless a reading was past its end |
| AgentWindows.WindowAnswers | agent/src/approvals.rs:136-160 | on every clock: while no reading so far nor this one is past the window the panel gave, a standing grant answers a request it is for at once with the store's own answer |
| AgentWindows.WindowExact | agent/src/approvals.rs:201-205 | on a clock that never goes back, a standing grant, the only one for a request, has it signed at once if and only if now < min(t + min(n, 900) * 1000, 2^64 - 1) for n seconds approved at t, and always if until screen lock |
| ObserverModel.AcceptedAt | agent/src/main.rs:1075-1086 | acceptance of a log means each entry was legal given everything observed before it |
| AgentTheorems.RequestsConserved | agent/src/main.rs:355-401 | at every point of every run each delivered request has been answered exactly once or stands in exactly one place: pending, held or waiting for a listing |
| AgentTheorems.NobodyWaits | agent/src/main.rs:355-373 | after a lock, a logout, an abandoned load, a shutdown or a closed panel, every request ever delivered has its reply |
| AgentDenials.DenialsTakeEffect | agent/src/main.rs:393-401 | in every run the event that denies or cancels a pending or held request answers it with a failure, takes it out of pending, held and queue, and touches no other entry, grant or key |
| AgentDenials.NeverSignedAfterDenial | agent/src/main.rs:393-401 | over the log of every run: whatever reply is sent to a request after the panel denied its current prompt is a failure |
| AgentListings.ListingsAreTrue | agent/src/main.rs:589-594 | every listing ever sent names, blob and name in order, exactly the keys announced by the latest published load, and none after a logout |
| AgentListings.StoreIsListed | agent/src/main.rs:872-877 | and until the agent stops those are, one by one, the public identities of the store |
| AgentOutcomes.ListingOutcome | agent/src/main.rs:543-595 | a listing is answered in the event that brings it if and only if there is a key to list, or unlocking on demand is off, or the client is another user's, or there is no prompt to wait for; otherwise it waits with the others, up to two minutes |
| AgentOutcomes.HoldOutcome | agent/src/main.rs:605-659 | behind a shut gate a request is held under a new id, with its own data and for two minutes, if and only if its key is known, the client is the user's, fewer than four wait and an id is left; otherwise it is refused at once |
| AgentOutcomes.ApproveAheadOutcome | agent/src/main.rs:374-380 | approving a held request records exactly that, for it alone, and answers nobody |
| AgentOutcomes.RevokeOutcome | agent/src/main.rs:403-411 | revoking leaves no grant, and whatever was approved ahead for a window is approved only once |
| AgentOutcomes.LockOutcome | agent/src/main.rs:355-364 | a lock drops the private keys, keeps the public ones, empties every table, shuts the gate, and the last thing said is the acknowledgement with its epoch |
| AgentOutcomes.LogoutOutcome | agent/src/main.rs:365-373 | a logout drops the public keys too |
| AgentOutcomes.HelloOutcome | agent/src/main.rs:349-354 | the first hello opens the gate and is answered, a second ends the loop |
| AgentOutcomes.LoadBeginOutcome | agent/src/main.rs:417-436 | a load begins only while none is under way; it shuts the gate, fails what is pending and voids queue and grants whatever the nonce, which must be 32 hexadecimal digits |
| AgentOutcomes.LoadEndOutcome | agent/src/main.rs:437-460 | a load the panel has ended waits five seconds for its payload |
| AgentOutcomes.TickOutcome | agent/src/main.rs:479-513 | a tick drops exactly the pending requests, held requests, listing and grants that have run out or whose clients have left; an overdue load is given up with everything held, and the keys are locked |
| AgentReleased.ReleaseOutcome | agent/src/main.rs:724-859 | when an event publishes a load, every request held for it has what is due to it: without its key a failure; approved ahead, the store's own answer and no second prompt; otherwise a window's answer or a new prompt with its own key, data, peer and scope for two minutes; while ids are left and the release takes under two minutes by the clock |
| AgentReleased.ApprovedExactly | agent/src/main.rs:741-800 | on every clock: releasing a request approved ahead answers it, with the store's own answer if a window answers it or there is room, under two minutes pass between queueing and approving it and its window has an id left, and with a failure if not |
| AgentTheorems.RefusedLoadsAnswerAll | agent/src/main.rs:982-1073 | however a load is refused (the payload, the panel ending it, the deadline), the very event that reports it leaves nobody waiting, the gate shut and no private key, in every run |
| AgentLoad.RefusalSparesExactly | agent/src/load.rs:139-175 | a refused payload leaves the store as it was if and only if the read failed, it was over 8 MiB, no envelope, of a nonce that is not 32 hexadecimal digits or not this load's, or of a stale epoch; otherwise the private keys are gone and the epoch has moved |
| AgentLoad.RefusedLateExactly | agent/src/load.rs:160-175 | a payload is refused exactly for one of those reasons or for an item beyond the 128th, over 64 KiB of PEM or with an id over 256 bytes |
| AgentLoad.LoadExactly | agent/src/load.rs:142-175 | a load publishes if and only if none of that is so, and then the store is unlocked at its epoch with one identity and key for each item nothing is wrong with, in the order of the items, but for later ones with a blob that is there already |
| AgentSources.KeysCameFrom | agent/src/keystore.rs:116-266 | at every point of every run each key in the store was made of an item in a payload the FIFO delivered, one that wants no reprompt and whose blob and fingerprint are the private key's own, and shows that item's id and name |
| AgentLoad.LiveKeysWiped | agent/src/load.rs:160-175 | a live set of keys wiped by a payload that is refused: its item has too long an id |
| AgentLoad.RefusedLoadLocks | agent/src/main.rs:1005-1073 | whatever the reason, a refused load leaves no private key, the store locked, the gate shut and the public keys as they were |
| AgentSettled.GrantsLeaveNoneWaiting | agent/src/approvals.rs:228-254 | at every point of every run no queued request is covered by a grant the manager holds |
| AgentTheorems.TablesAgree | agent/src/main.rs:343-515 | in every run queued requests are pending under their id with the key, data, peer and scope of one client request; ids are handed out, in one table only and not the held listing's; an open gate leaves nothing held, a shut one nothing queued or pending; queued plus held stays within four |
| AgentTheorems.EpochWindows | agent/src/state.rs:33-67 | in every run the keys of an epoch are unlocked in one contiguous interval with one unchanged store, private keys only while unlocked and each at its own distinct blob |
| AgentTheorems.StoreMovesOn | agent/src/keystore.rs:230-279 | between any two points of a run the store is unchanged or its interval is over, and the epoch has not gone back |
| AgentRelease.ReleaseNeverFull | agent/src/main.rs:741-833 | before each held request of a release the queue has room, so it is never refused for being full |
| AgentBurst.ReleasesHaveRoom | agent/src/main.rs:741-833 | the same for every event of every run that publishes a load |
| AgentAnswers.ApprovalAnswers | agent/src/main.rs:374-392 | approving a pending request answers it in that step, with a signature exactly when it is still queued and unexpired, its key is loaded and can sign with the flags, and the grant to open (if any) has an id left |
| AgentAnswers.SignOutcome | agent/src/main.rs:660-717 | what becomes of a sign request at an open gate, exactly: another user or an unloaded key is refused; a live covering grant answers at once with the store's own answer; otherwise it waits for the panel under a new id with its own data, or is refused for want of room |
| AgentOutcomes.OpenGateOutcome | agent/src/main.rs:660-717 | the same with every condition written out: loaded means unlocked with the blob in the store, a grant answers by time, epoch, key, kind, user and program, and four unexpired requests or the last id leave no room |
| AgentOutcomes.QueuedOutcome | agent/src/approvals.rs:152-175 | one that waits is queued with its own epoch, key, peer and scope for two minutes |
| AgentBurst.SettleLoadFits | agent/src/main.rs:243-252 | settling a load sends at most MAX_KEYS + 1 + max(2n, 3n - 2) + 1 messages for n held requests, which never exceeds CONTROL_OUTPUT_CAPACITY |
| AgentBurst.EventFitsExactly | agent/src/main.rs:243-252 | for every event of every run: what it sends fits the channel unless it is a tick, with the gate open, whose lapsed requests, finished listing and moved grants are more than the capacity, and then it does not |
| AgentSends.TickSends | agent/src/main.rs:479-513 | a tick sends exactly one message per lapsed and stale request, one for a finished listing and one for moved grants, and reports a refused load exactly when one is overdue, with one message per request it cancels |
| AgentSends.SettleLoadReports | agent/src/main.rs:982-1003 | a refused load is reported once and cancels everything held, message by message; a published one is never reported as refused |
| AgentWitness.TickOverruns | agent/src/main.rs:479-513 | a run of 147 requests on a clock that jumps while no tick comes, all but eight of their clients gone, after which one tick sends more than the channel holds |
| AgentTimely.TimelyRunsFit | agent/src/main.rs:479-513 | in every run whose clock ticks within each request lifetime at most eight requests are pending and every event fits the channel |
| AgentSends.ReleaseHeldSends | agent/src/main.rs:724-859 | releasing n held requests sends exactly n messages, one more for each put to the panel anew and one more for each that a grant then settles |
| AgentBurst.ReleaseHeldFits | agent/src/main.rs:724-859 | which is at most max(2n, 3n - 2) |
| AgentSpill.SpillIsNeeded | agent/src/main.rs:243-248 | on every clock, more than 2n messages are sent only if one held request was approved ahead for a window, all others are unapproved and loaded, and the window answers at least two raised before it and none raised after it |
| AgentSpill.SpillsExactly | agent/src/main.rs:243-248 | on every clock, exactly if so, the ids suffice, and by the clock readings of the release the window opens and lasts and at least two of the requests it answers do |
| AgentSpill.SpillTakes | agent/src/main.rs:724-859 | then it sends exactly 2n - 1 messages and one for each request before the opener that the window answers and that has not run out, up to 3n - 2 |
| AgentBurst.MoreThanTwoExactly | agent/src/main.rs:243-248 | the same for every event of every run that publishes a load |
| AgentWitness.SevenForThree | agent/src/main.rs:243-248 | a run that holds three requests, the last approved ahead for a window covering the others, whose release sends seven messages |
| LengthPrefix.ReadStringExact | agent/src/protocol.rs:293-295 | a string is read from bytes exactly when they start with its encoding |
| WireModel.IdentitiesExact | agent/src/protocol.rs:231-245 | a frame decodes to an identities request exactly when it is that one frame |
| WireModel.SignExact | agent/src/protocol.rs:231-305 | a frame decodes to a sign request exactly when it is that request's encoding |
| WireModel.BindExact | agent/src/protocol.rs:264-291 | a frame decodes to a bind exactly when it is that bind's encoding, with a host key and a session id that are not empty and within their limits |
| WireModel.BindDecodes | agent/src/protocol.rs:264-291 | a bind on the wire is read for what it says if within the limits and refused if not |
| WireModel.EveryBindIsSeen | agent/src/protocol.rs:254-262 | no frame naming a bind is taken for anything else: it decodes as one or may be one |
| WireModel.MayBeBindExact | agent/src/protocol.rs:254-262 | a frame may be a bind if and only if it is of type 27 and its name is that of a bind or no string at all |
| WireModel.SshSigExact | agent/src/protocol.rs:130-140 | a namespace is read exactly from SSHSIG data with a known hash that carries it and that can be displayed |
| WireModel.ForNamespaceExactly | agent/src/protocol.rs:111-140 | so a signature is classified for a namespace if and only if it is over SSHSIG data with sha256 or sha512 that names it, in 1 to 256 visible bytes |
| WireModel.UserAuthExact | agent/src/protocol.rs:115-190 | a message within the frame limit is classified as a login exactly when it is login data with the signing key, for the user it names and the host of the latest bind for its session, else the host it signs over, else none |
| WireModel.LatestHostExact | agent/src/protocol.rs:177-181 | the bind used is the last one for the session |
| WireModel.NeverBoth | agent/src/protocol.rs:111-120 | nothing within the frame limit parses both as SSHSIG data and as a login |
| WireModel.IdentitiesResponse | agent/src/protocol.rs:318-335 | the frame is the listing of all keys if that fits and the failure otherwise |
| WireModel.ListingReadsBack | agent/src/protocol.rs:318-335 | a client reads back exactly the keys listed |
| ConnectionModel.Connection.Receive | agent/src/server.rs:69-127 | one frame does what the model says and the forwarding mark is never cleared |
| ConnectionModel.ForwardedExactly | agent/src/server.rs:69-113 | a connection is marked forwarded exactly when some frame so far was a forwarding bind, an unreadable one or one too many |
| ConnectionModel.ClosedExactly | agent/src/server.rs:115-127 | a connection is closed if and only if some sign request came while the peer read as somebody else |
| ConnectionModel.AnswersExactly | agent/src/server.rs:69-131 | what each frame gets: nothing once closed, a refusal if unreadable, success for a bind unless sixteen are recorded, and listings and signatures are asked of the agent, the latter only for the admitted peer |
| ConnectionModel.DeliveredExactly | agent/src/server.rs:115-131 | a delivered request carries what its frame decodes to, the admitted, unchanged peer, the mark, and the kind read with the binds recorded before it |
| ConnectionModel.TaintedNeedsApproval | agent/src/server.rs:69-113 | after such a frame every signature on the connection needed its own approval, in every run of the agent |
| ConnectionModel.TaintedOpensNoGrant | agent/src/approvals.rs:65-67 | and no grant is ever opened by such a request |
| Base64Model.DecodeExact | agent/src/load.rs:73-98 | the decoder is the exact inverse of the canonical padded encoding, both ways |
| Base64Model.GroupExact | agent/src/load.rs:80-95 | a group is accepted exactly when it encodes one to three bytes, fewer than three only at the end, over zero bits |
| Base64Model.DecodeBase64 | agent/src/load.rs:73-98 | the loop returns b for exactly the texts that encode a non-empty b |
| FifoModel.PayloadAccumulator.Push | agent/src/runtime.rs:71-111 | however the stream is cut, a push returns the first accepted line of everything pushed so far, or keeps the unfinished line within the cap |
| FifoModel.ReadPayload | agent/src/runtime.rs:232-262 | reading any chunks gives the first newline-terminated line within the cap that the filter accepts in their concatenation |
| FifoModel.FirstAcceptedExact | agent/src/runtime.rs:71-111 | that is, the payload of the first newline-terminated line of at most 8 MiB that gives one, and nothing only if no line does |
| FifoModel.TakeLineExact | agent/src/load.rs:200-217 | a line gives the whole of itself if it names the load, and otherwise all from the first place this load's opening stands, if that is behind the start and names it |
| FifoModel.LocatedExactly | agent/src/load.rs:200-217 | a payload behind a fragment without this load's marker is located at its own start if and only if the joined line does not itself name the load |
| FifoModel.FindMarker | agent/src/load.rs:212-215 | the first window equal to the marker, or none |
| EnvelopeModel.BuildAad | unlock-key/src/lib.rs:606-613 | the loop builds the domain and the length-prefixed parts |
| EnvelopeModel.AadInjective | unlock-key/src/lib.rs:604-613 | distinct lists of parts under 4 GiB never encode the same |
| EnvelopeModel.LongPartsCollide | unlock-key/src/lib.rs:606-613 | beyond that they do: a part of 2^32 - 1 bytes or more, wherever it stands, encodes with those after it like one longer part, since its length is clamped |
| EnvelopeModel.AadAmbiguousExactly | unlock-key/src/lib.rs:606-613 | a list shares its encoding with another if and only if such a part is followed by others, or is last and carries an encoding of further parts behind its first 2^32 - 1 bytes or more |
| EnvelopeModel.KekExact | unlock-key/src/lib.rs:593-602 | keys derived for two (input, purpose) pairs are equal exactly when the pairs are |
| EnvelopeModel.DekIsReached | unlock-key/src/lib.rs:434-468 | the data key is reached by exactly the ways and keys enrolled, with Missing and WrongKey as promised |
| EnvelopeModel.OpensAsTheSafe | unlock-key/src/lib.rs:429-432 | every way opens exactly the current password with its latest key |
| EnvelopeModel.ChangesOneWay | unlock-key/src/lib.rs:471-573 | an operation changes exactly the way it names: the new key opens and no other, a removed way is Missing, all other ways answer as before, and rotation changes the password for all |
| EnvelopeRules.ChangesExactly | unlock-key/src/lib.rs:471-573 | an operation goes through if and only if it is permitted: enrolling and rotating take a way that opens and values within the written-out limits, at most sixteen tokens, and what is removed must be there; otherwise the error is that of the first thing wrong |
| EnvelopeRules.RestStays | unlock-key/src/lib.rs:471-573 | and leaves the account, the staleness flag but for marking and rotating, and every other enrolment with its parameters as they were |
| EnvelopeRules.AcceptedExactly | unlock-key/src/lib.rs:366-390 | an envelope is accepted when read back if and only if its account is clean text, its derivations are argon2id of 64 MiB to 4 GiB, 3 to 64 rounds, 1 to 16 lanes and a salt of 22 to 64 base64 characters, and its at most sixteen tokens are proper and distinct |
| EnvelopeRules.MadeExactly | unlock-key/src/lib.rs:330-354 | one is made if and only if the account, the derivation and a password of 1 to 4096 bytes are within the limits, with the error of the first that is not |
| EnvelopeRules.ParamsExact | unlock-key/src/lib.rs:185-202 | the parameter checks pass exactly within those limits, a PIN's from 256 MiB and 4 rounds, and give Malformed only for another algorithm |
| EnvelopeRules.TokenExact | unlock-key/src/lib.rs:726-740 | the token checks pass exactly for a credential of 1 to 1024 bytes, a named relying party in clean text and a salt of 32 bytes, with the error of the first that fails |
| EnvelopeRules.BoundBytes | unlock-key/src/lib.rs:593-645 | the bytes bound into each box and the names keys are derived under, written out |
| EnvelopeBinding.WrapAadExact | unlock-key/src/lib.rs:623-633 | the associated data of a password wrap determines account, purpose and every parameter |
| EnvelopeBinding.FidoAadExact | unlock-key/src/lib.rs:635-645 | the associated data of a token wrap determines account, credential, relying party and salt |
| EnvelopeBinding.SplicedOpensNothing | unlock-key/src/lib.rs:434-468 | an envelope put together from another's boxes with any fields edited gives up the data key only where account, parameters and box are the original's, to that way's own key |
| EnvelopeBinding.SplicedOpensThePassword | unlock-key/src/lib.rs:429-432 | and what opens is the current password of the same account |
| EnvelopeBinding.RollbackOpens | unlock-key/src/lib.rs:471-527 | one wrap of an earlier envelope put back (for a token, in its place among the current ones) opens the current password exactly where, and by exactly the key with which, it opened the password of its time, and every other way opens as before |
| EnvelopeObject.EnvelopeBox.constructor | unlock-key/src/lib.rs:330-354 | a new envelope represents the password with the master way only |
| EnvelopeObject.EnvelopeBox.Open | unlock-key/src/lib.rs:429-432 | opens what the safe it represents says, for every input |
| EnvelopeObject.EnvelopeBox.SetPin | unlock-key/src/lib.rs:471-484 | enrols or replaces the PIN, or refuses for the right reason and changes nothing |
| EnvelopeObject.EnvelopeBox.SetFingerprint | unlock-key/src/lib.rs:487-493 | enrols the fingerprint, or refuses and changes nothing |
| EnvelopeObject.EnvelopeBox.SetToken | unlock-key/src/lib.rs:497-527 | enrols or replaces one credential within sixteen, or refuses and changes nothing |
| EnvelopeObject.EnvelopeBox.Drop | unlock-key/src/lib.rs:530-550 | removes one way, or reports it missing |
| EnvelopeObject.EnvelopeBox.SetStale | unlock-key/src/lib.rs:553-555 | only the stale flag changes |
| EnvelopeObject.EnvelopeBox.Reseal | unlock-key/src/lib.rs:559-573 | a new password and master way; every other way stays valid |
| EnvelopeObject.Live | unlock-key/src/lib.rs:330-573 | from creation through any operations, opening any way gives exactly what the reference safe says |
| RedactionModel.StripItem | vault/src/store.rs:387-455 | the step-by-step removal leaves each element of fields as it was, but one that is an object of type 1 without its value; login, identity, card and notes without their secrets; everything else as it was; and adds flags that each tell of the secret they are named for |
| RedactionModel.RedactedIsStripped | vault/src/store.rs:387-455 | the same of the value model for every item, element by element and member by member |
| RedactionModel.RedactionExact | vault/src/store.rs:387-455 | two items come out the same if and only if they differ in nothing but secret values with the same ones present |
| RedactionModel.OthersUnchanged | vault/src/store.rs:387-455 | every path, through members and array positions, keeps its value if and only if it lies neither on, above nor below a secret, and nothing appears where there was nothing, but for the record of what was removed |
| VaultReadsModel.ReadExact | vault/src/store.rs:264-290 | two vault reads give the panel the same output if and only if they agree outside the secret values of each element of items |
| VaultReadsModel.ReadIsStripped | vault/src/store.rs:264-290 | in a whole read every object among the items is stripped so, and everything else is as it was |
| VaultReadsModel.ReadPathExact | vault/src/store.rs:264-290 | in a whole read too, exactly the paths clear of every item's secrets keep their value, and nothing appears where there was nothing, but for the records |
| VaultStoreModel.VaultStore.constructor | vault/src/store.rs:128-141 | an empty store at generation 0 |
| VaultStoreModel.VaultStore.Forget | vault/src/store.rs:170-176 | everything but the named secrets is gone and the counter goes up, wrapping at 2^64 |
| VaultStoreModel.VaultStore.HoldSession | vault/src/store.rs:190-196 | the session key becomes the named secret, if there is one |
| VaultStoreModel.VaultStore.ForgetSecret | vault/src/store.rs:164-166 | that secret is gone and nothing else |
| VaultStoreModel.VaultStore.ForgetItem | vault/src/store.rs:179-187 | the item is taken out of the ordered map and the index still agrees |
| VaultStoreModel.VaultStore.Hold | vault/src/store.rs:292-317 | an item with a string id replaces its predecessor in place or is appended, and the index still agrees |
| VaultStoreModel.VaultStore.Item | vault/src/store.rs:198-200 | lookup through the index is linear lookup |
| VaultStoreModel.VaultStore.Search | vault/src/store.rs:241-258 | an order-preserving filter of the held items |
| VaultStoreModel.SearchExact | vault/src/store.rs:241-258 | it finds, in the order first held, exactly the items whose search text has the query as a part, or whose card number's last four digits have the query's digits as a part; all for an empty query |
| VaultStoreModel.HeldExact | vault/src/store.rs:292-317 | an item is held if and only if its id is text: whole, under that id, with its search text and the digits of its card's number |
| VaultStoreModel.VaultStore.StripVault | vault/src/store.rs:264-290 | the whole read is held and what is handed on is redacted; anything but an object changes nothing |
| VaultStoreModel.PutLooksUp | vault/src/store.rs:309-315 | holding changes what its own id finds and nothing else |
| VaultStoreModel.TakeLooksUp | vault/src/store.rs:179-187 | forgetting an item changes what its own id finds and nothing else |
| VaultStoreModel.ReadIsKeptWhole | vault/src/store.rs:264-317 | after a read the string id of an object among its items and SSH keys finds the last object with that id exactly as it was read, and an id no object has finds what it found before |
| VaultRunsModel.Keep | vault/src/main.rs:525-590 | a run of another generation changes nothing; a current one leaves exactly what its capture calls for |
| VaultRunsModel.KeptExactly | vault/src/main.rs:534-590 | what each kind of run keeps, both ways: a session from exit 0, a non-empty secret, a non-empty pin from exit 0, a vault read from exit 0 that replaces or adds |
| VaultRunsModel.AlwaysSound | vault/src/main.rs:363-380 | under every interleaving the held session and items come from a run with the same counter value, and a held secret did when stored and was named in every keep list since |
| VaultRunsModel.AlwaysTraced | vault/src/main.rs:363-590 | under every interleaving each held value is exactly what the run between its two recorded steps kept: the session key, the secret of that name or the session copied to it, the last item read under that id |
| VaultRunsModel.FromTheCurrentGeneration | vault/src/main.rs:518-534 | with fewer than 2^64 forgets the session and items held are what a run kept that began after the last forget, and a secret what a run kept since whose beginning every forget named it |
| VaultRunsModel.KeepsExactlyWhen | vault/src/main.rs:534-546 | a finished run leaves its session, secret or vault items exactly when the number of forgets since its start is a multiple of 2^64, and otherwise leaves nothing at all |
| VaultRunsModel.WrapLetsAStaleRunIn | vault/src/store.rs:171-171 | the bound is needed: after 2^64 forgets a run from before them is taken for a current one |
| VaultHelperModel.VaultHelper.BeginRun | vault/src/main.rs:363-445 | starting a run takes the current generation with it: one step of the stamped history |
| VaultHelperModel.VaultHelper.FinishRun | vault/src/main.rs:450-590 | a finished run leaves the store with exactly the session, secrets and items of one step of the history, and says it kept something only at its own generation |
| VaultHelperModel.VaultHelper.ForgetAll | vault/src/main.rs:249-249 | one step of the history: session and items are gone, and the secrets not named |
| VaultHelperModel.VaultHelper.CopySession | vault/src/main.rs:250-252 | one step of the history: the session becomes a secret |
| VaultHelperModel.VaultHelper.DropSecret | vault/src/main.rs:253-253 | one step of the history |
| VaultHelperModel.VaultHelper.DropItem | vault/src/main.rs:254-254 | one step of the history |
| VaultHelperModel.StoreIsCurrent | vault/src/main.rs:520-536 | so with fewer than 2^64 forgets the session key in the store was given by a run for a session that exited with 0, each item is the last object with its id in a vault read that exited with 0, both by a run begun after the last forget, and each secret was given, or copied from the session given, by a run since whose beginning every forget named it |
| KillListModel.SignalsOnlyItsOwn | vault/src/main.rs:148-160 | in every interleaving every group signalled is that of one listed, unreaped child and of nobody else |
| KillListModel.SignalsAllOfThem | vault/src/main.rs:148-160 | and nobody is missed: unless a child is just being spawned, shutdown signals the group of every listed child and a kill that of the one listed under its id |
| KillListModel.KillSchedules | vault/src/main.rs:624-632 | a kill schedules one SIGKILL for exactly that child |
| KillListModel.DelayedKillComes | vault/src/main.rs:624-632 | which signals it whenever it is still listed then |
| KillListModel.ListIsBounded | vault/src/main.rs:399-411 | live run ids are unique and at most MAX_RUNS are listed |
| KillListModel.DelayedKillsItsRun | vault/src/main.rs:624-632 | a delayed SIGKILL reaches the run it was meant for exactly while that is unreaped; otherwise a later one that has taken over both its id and its pid |
| KillListModel.TakenOver | vault/src/main.rs:624-632 | a run in which that happens |
| KillListModel.AlwaysInv | vault/src/main.rs:399-495 | the list names exactly the children between insertion and removal, in every interleaving |
| SupervisorModel.AlwaysSound | BitwardenModel.js:6288-6392 | in every reachable state the gate is open exactly when ready, messages pass only then, restarts wait at most 30 s, and a start is issued only from disabled, failed, backoff or elsewhere |
| SupervisorModel.ActsExactly | BitwardenModel.js:6288-6392 | a helper is started, greeted and stopped, a restart cancelled and a message passed on, each exactly when the phase and the event call for it |
| SupervisorModel.ExitExact | BitwardenModel.js:6262-6283 | an exit is retried in 30 s if the lock is held elsewhere before ready; otherwise it is failure n, or the first after a minute ready, given up after five and until then restarted in 500, 1000, 2000, 4000 or 8000 ms |
| SupervisorModel.OneAtATime | BitwardenModel.js:6288-6392 | where only a helper that was started exits, starts never exceed exits by more than one if and only if it is never enabled again between disabling a running helper and that helper's exit |
| SupervisorModel.RushedRun | BitwardenModel.js:6304-6314 | such a run: enabled, up, disabled and enabled again gives two starts and no exit |
| SupervisorModel.CrashLoopCapped | BitwardenModel.js:6262-6283 | from enabling on, without a re-enable, a healthy exit or a lock-held exit, at most MAX_RESTARTS + 1 starts are issued |
| SupervisorModel.StretchStarts | BitwardenModel.js:6262-6283 | the same from any reachable state, with the starts still left |
| SupervisorModel.ExitsEndIt | BitwardenModel.js:6262-6283 | once the exits of such a stretch use up the restarts it is off and stays off |
| SupervisorModel.DelayBounded | BitwardenModel.js:4878-4883 | the delay is positive and at most 30 s for any number of failures |
| SupervisorModel.DelayDoubles | BitwardenModel.js:4878-4883 | it is 500 ms after the first failure and doubles with each more, up to 30 s |
| Base32Model.Accumulate | vault/src/totp.rs:161-177 | the 16-bit masked accumulator gives floor(5n/8) bytes of the concatenated 5-bit groups |
| Base32Model.Base32 | vault/src/totp.rs:161-177 | those of the text's UTF-8 bytes upper-cased in ASCII, never outgrowing the allocation |
| Base32Model.DecodeBase32 | TotpModel.js:99-115 | those of the text upper-cased by whatever rules the language has |
| Base32Model.IndexIsPosition | vault/src/totp.rs:166-168 | the value of a character is where the search through the alphabet finds it, and it is skipped exactly when that finds nothing |
| Base32Model.SameSecretExactly | TotpModel.js:99-115 | the two decoders give the same bytes if and only if no character outside ASCII upper-cases to text with a letter of the alphabet, or exactly one does, to exactly one letter, at most two bits are dropped without it, and every letter after it repeats it, the last one apart from those bits |
| Base32Model.FormDecodeBytes | vault/src/totp.rs:127-156 | up to the check that the bytes are UTF-8: a plus is a space, a percent takes exactly two hex digits or the text is refused, any other byte stands for itself |
| Base32Model.EverySecretArises | vault/src/totp.rs:127-156 | every text is the decoding of an all-ASCII one, so no secret is excluded by the test on the raw key |
| Base32Model.SharpSDiffers | TotpModel.js:99-105 | a key on which they differ: an escaped sharp s decodes to one byte in the panel and to none in the helper |
| Base32Model.LongSIsLost | TotpModel.js:99-105 | keys on which they agree although the panel reads one more letter: any ASCII key that leaves at most two bits over, followed by a long s |
| TotpModel.BinariesAgree | TotpModel.js:126-127 | the helper's shifts and bitwise ors and the panel's product and sum put the four bytes together to the same truncated number |
| TotpModel.Derive | vault/src/totp.rs:179-205 | the code of the truncated hash of the eight-byte counter, of exactly the digits asked for |
| TotpModel.DeriveOtp | TotpModel.js:117-141 | the same from the panel's two 32-bit halves and padding loop |
| TotpModel.SameTime | TotpModel.js:118-122 | below 2^53 the two halves are the eight big-endian bytes |
| TotpModel.BigEndianReads | vault/src/totp.rs:179-185 | the eight bytes spell the counter, most significant first |
| TotpModel.CodeExact | vault/src/totp.rs:199-204 | a decimal code has exactly the digits and reads back as the truncated hash modulo that power of ten |
| TotpModel.SteamDigits | vault/src/totp.rs:190-198 | the base-26 digits in the Steam alphabet, least significant first |
| TotpModel.SteamCodeExact | vault/src/totp.rs:190-198 | character i of a Steam code is the alphabet's at (number / 26^i) mod 26 |
| TotpModel.BothAgree | TotpModel.js:117-141 | for one secret text that meets that exact condition, one hash function and any counter below 2^53 both give the same code of exactly the digits |
| TotpModel.CodesAgreeExactly | TotpModel.js:117-141 | the codes are the same for every hash function if and only if the text meets it |
| TotpModel.AsciiHasNoStrays | TotpModel.js:99-115 | an ASCII secret always meets that condition |

## Left out

- Cryptography: the AEAD opens exactly with its key and associated data, HKDF is injective per input and info, HMAC and hashes are parameters; their strength is not modelled.
- Key parsing: what a PEM and a public key line yield is part of the item; Ed25519 and RSA are the two kinds.
- JSON parsing: control lines, payload envelopes and vault reads arrive parsed; which lines name a load is a parameter of the FIFO filter.
- A protocol error in the agent loop ends it with `Failed`; that the dropped reply channels then fail the waiting clients is the runtime's doing.
- A delivered request that finds the event channel full is failed by the server and never reaches the loop.
- Size limits of signature responses, and the text shown in prompts (`visible_text`), do not affect what is signed.
- Sockets, timeouts, `/proc`, file permissions, locks on paths, zeroization and process hardening: operating-system effects.
- VaultStoreModel.VaultStore.Search: how search text is built from an item, and folding of the query, are parameters.
- EnvelopeRules.AcceptedExactly: the version number and the encodings of nonces, boxes and the fingerprint key are not modelled; boxes are symbolic.
- VaultRunsModel.Keep: extraction of a session key and of a pinentry answer from text is an input; what the panel is shown of a run is not modelled.
- KillListModel: detached runs, which are never listed, and the half-second between the two shutdown signals.
- Buffers: `extend_wiping` and `grow` append by copying to a larger buffer and wiping the old one, which is plain appending here; `read_line` drops an overlong line and `drain` keeps a pipe's output up to a cap, and both arrive as their results.
- TotpModel.BothAgree: of reading a key only form decoding is modelled; splitting otpauth URIs and Steam links into parameters is not, and secrets are the text after it.
- SupervisorModel.AlwaysSound: lines of the helper arrive parsed; user-visible message texts are not modelled.
- Field access by name in the vault helper (`SecretField`, `value_at`, `item_secret`) and the clipboard.
- Shell-script builders, window matching, settings and all user interface code of the panel.
