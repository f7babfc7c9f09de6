/** What one event does to the tables, said outright: when a request or a listing is held,
    how long it may wait, what an approval ahead of a load records, and what a tick drops. */
module AgentOutcomes {
  import opened Base
  import opened KeyStoreModel
  import opened FifoModel
  import opened ApprovalModel
  import opened ObserverModel
  import opened AgentModel
  import opened AgentSends
  import opened AgentTrace
  import opened AgentInvariant
  import opened AgentArms
  import opened AgentDrain
  import opened AgentSafety
  import opened AgentAnswers

  /** So many milliseconds later, on a 64-bit clock. */
  function MsLater(now: nat, ms: nat): nat {
    if now + ms < 0xFFFF_FFFF_FFFF_FFFF then now + ms else 0xFFFF_FFFF_FFFF_FFFF
  }

  /** The store is unlocked and holds a private key for this blob. */
  predicate Loaded(store: Store, blob: Blob) {
    && store.tracker.state == Unlocked
    && exists i :: 0 <= i < |store.private| && i < |store.public| && store.public[i].blob == blob
  }

  lemma LoadedExactly(store: Store, blob: Blob)
    requires ValidStore(store)
    ensures Authorize(store, blob).Some? <==> Loaded(store, blob)
  {
    FindKeyExact(store, blob, 0);
  }

  // ---- a listing ----

  /** A listing is put off only if there is nothing to list, unlocking on demand is on, the
      client is the user's, and there is a prompt to wait for. */
  predicate PutOff(s: Agent, c: Client) {
    && s.store.public == [] && s.unlockOnDemand && c.peer.uid == s.approvals.uid
    && (s.listing.Some? || s.approvals.nextId < 0xFFFF_FFFF_FFFF_FFFF)
  }

  /** A listing is answered in the very event that brings it, with the blob and the name of
      each public identity in order, if and only if it is not put off; one put off waits up
      to two minutes with the others. */
  lemma ListingOutcome(s: Agent, c: Client)
    requires Inv(s) && s.phase.Running? && c.request.Identities?
    ensures var s' := Step(s, FromClient(c));
            var chan := s.nextChan;
            && (chan in Observe(s'.log).book.answered <==> !PutOff(s, c))
            && (!PutOff(s, c) ==> AnsweredWith(s', chan, Listing(Names(s.store.public))) && s'.listing == s.listing)
            && (PutOff(s, c) && s.listing.Some? ==>
                  s'.listing == Some(s.listing.value.(waiting := s.listing.value.waiting + [chan])))
            && (PutOff(s, c) && s.listing.None? ==>
                  s'.listing == Some(HeldListing(s.approvals.nextId, MsLater(Now(s), 120_000), [chan])))
  {
    hide Inv, Step, HandleListing, Observe;
    NotAnsweredYet(s);
    var s1 := Note(s.(nextChan := s.nextChan + 1), Delivered(s.nextChan, c));
    DeliveredUnanswered(s, c);
    ListingStep(s, c);
    ListingSays(s1, s.nextChan, c);
  }

  lemma DeliveredUnanswered(s: Agent, c: Client)
    requires s.nextChan !in Observe(s.log).book.answered
    ensures var s1 := Note(s.(nextChan := s.nextChan + 1), Delivered(s.nextChan, c));
            s.nextChan !in Observe(s1.log).book.answered
  {
  }

  lemma ListingStep(s: Agent, c: Client)
    requires s.phase.Running? && c.request.Identities?
    ensures Step(s, FromClient(c)) ==
            HandleListing(Note(s.(nextChan := s.nextChan + 1), Delivered(s.nextChan, c)), s.nextChan, c)
  {
    hide HandleListing;
  }

  lemma ListingSays(s: Agent, chan: Chan, c: Client)
    requires chan !in Observe(s.log).book.answered
    ensures var s' := HandleListing(s, chan, c);
            && (chan in Observe(s'.log).book.answered <==> !PutOff(s, c))
            && (!PutOff(s, c) ==> AnsweredWith(s', chan, Listing(Names(s.store.public))) && s'.listing == s.listing)
            && (PutOff(s, c) && s.listing.Some? ==>
                  s'.listing == Some(s.listing.value.(waiting := s.listing.value.waiting + [chan])))
            && (PutOff(s, c) && s.listing.None? ==>
                  s'.listing == Some(HeldListing(s.approvals.nextId, MsLater(Now(s), 120_000), [chan])))
  {
    hide ListKeys, Observe;
    ListKeysIs(s.store.public);
    ReplyObserved(s, chan, Listing(ListKeys(s.store.public)));
    var (approvals, id) := Reserve(s.approvals);
    if id.Some? {
      PromptUnanswered(s.(approvals := approvals), chan, UnlockRequired(id.value, chan, None, c.peer, Scope(c), false));
    }
  }

  /** A prompt and a clock reading answer nobody. */
  lemma PromptUnanswered(s: Agent, chan: Chan, out: Output)
    ensures Observe(ReadClock(Emit(s, out)).log).book.answered == Observe(s.log).book.answered
  {
  }

  // ---- a sign request at a shut gate ----

  /** The key is known, the client is the user's, and fewer than four requests wait. */
  predicate MayWait(s: Agent, c: Client)
    requires c.request.SignData?
  {
    && (exists i :: 0 <= i < |s.store.public| && s.store.public[i].blob == c.request.blob)
    && c.peer.uid == s.approvals.uid
    && |s.approvals.queue| + |s.held| < 4
    && s.approvals.nextId < 0xFFFF_FFFF_FFFF_FFFF
  }

  /** Behind a shut gate a request is held under a new id, with its own data and for two
      minutes, if and only if it may wait; otherwise it is refused at once. */
  lemma HoldOutcome(s: Agent, c: Client)
    requires Inv(s) && s.phase.Running? && !s.gateOpen && c.request.SignData?
    ensures var s' := Step(s, FromClient(c));
            var chan := s.nextChan;
            && (chan in Observe(s'.log).book.answered <==> !MayWait(s, c))
            && (!MayWait(s, c) ==> AnsweredWith(s', chan, Failure) && s'.held == s.held)
            && (MayWait(s, c) ==>
                  s'.held == s.held[s.approvals.nextId :=
                    HeldSign(chan, c.request.blob, c.request.message, c.request.flags, c.peer, Scope(c),
                             MsLater(Now(s), 120_000), None)])
  {
    hide Inv, Step, HoldSign, Observe;
    NotAnsweredYet(s);
    var s1 := Note(s.(nextChan := s.nextChan + 1), Delivered(s.nextChan, c));
    DeliveredUnanswered(s, c);
    HoldStep(s, c);
    HoldSays(s1, s.nextChan, c);
  }

  lemma HoldStep(s: Agent, c: Client)
    requires s.phase.Running? && !s.gateOpen && c.request.SignData?
    ensures Step(s, FromClient(c)) ==
            HoldSign(Note(s.(nextChan := s.nextChan + 1), Delivered(s.nextChan, c)), s.nextChan, c)
  {
    hide HoldSign;
  }

  lemma HoldSays(s: Agent, chan: Chan, c: Client)
    requires c.request.SignData? && chan !in Observe(s.log).book.answered
    ensures var s' := HoldSign(s, chan, c);
            && (chan in Observe(s'.log).book.answered <==> !MayWait(s, c))
            && (!MayWait(s, c) ==> AnsweredWith(s', chan, Failure) && s'.held == s.held)
            && (MayWait(s, c) ==>
                  s'.held == s.held[s.approvals.nextId :=
                    HeldSign(chan, c.request.blob, c.request.message, c.request.flags, c.peer, Scope(c),
                             MsLater(Now(s), 120_000), None)])
  {
    hide FindPublic, Observe;
    KnownExactly(s.store.public, c.request.blob);
    ReplyObserved(s, chan, Failure);
    var key := FindPublic(s.store.public, c.request.blob);
    var (approvals, id) := Reserve(s.approvals);
    if id.Some? {
      var out := UnlockRequired(id.value, chan, key, c.peer, Scope(c), Grantable(Scope(c)));
      PromptUnanswered(s.(approvals := approvals), chan, out);
    }
  }

  lemma KnownExactly(public: seq<PublicIdentity>, blob: Blob)
    ensures FindPublic(public, blob).Some? <==> exists i :: 0 <= i < |public| && public[i].blob == blob
  {
  }

  // ---- a sign request at an open gate ----

  /** One that waits for the panel is queued as it was asked, for two minutes. */
  lemma QueuedOutcome(s: Agent, c: Client)
    requires Inv(s) && s.phase.Running? && s.gateOpen && c.request.SignData?
    requires s.approvals.nextId in Step(s, FromClient(c)).pending
    ensures var s' := Step(s, FromClient(c));
            Request(s.approvals.nextId, s.store.tracker.epoch, c.request.blob, c.peer, Scope(c),
                    MsLater(Now(s), 120_000)) in s'.approvals.queue
  {
    hide Inv, Step, Authorize, SubmitSign;
    var s1 := Note(s.(nextChan := s.nextChan + 1), Delivered(s.nextChan, c));
    NewIdUnused(s);
    SubmitStep(s, c);
    if Authorize(s.store, c.request.blob).Some? {
      KeyIsListed(s.store, c.request.blob);
      if c.peer.uid == s.approvals.uid {
        SubmitQueues(s1, s.nextChan, c.request.blob, c.request.message, c.request.flags, c.peer, Scope(c));
      } else {
        StrangerWaitsNot(s1, s.nextChan, c.request.blob, c.request.message, c.request.flags, c.peer, Scope(c));
      }
    }
  }

  lemma NewIdUnused(s: Agent)
    requires Inv(s)
    ensures s.approvals.nextId !in s.pending && ValidStore(s.store)
  {
    assert forall id | id in s.pending :: Prompted(Observe(s.log).book, id, s.pending[id].chan);
  }

  lemma SubmitStep(s: Agent, c: Client)
    requires s.phase.Running? && s.gateOpen && c.request.SignData?
    ensures var s1 := Note(s.(nextChan := s.nextChan + 1), Delivered(s.nextChan, c));
            Step(s, FromClient(c)) ==
            if Authorize(s.store, c.request.blob).None? then Reply(s1, s.nextChan, Failure)
            else SubmitSign(s1, s.nextChan, c.request.blob, c.request.message, c.request.flags, c.peer, Scope(c))
  {
    hide Authorize, SubmitSign;
  }

  lemma SubmitQueues(s: Agent, chan: Chan, blob: Blob, message: seq<byte>, flags: nat, peer: Peer, scope: SignScope)
    requires s.approvals.nextId !in s.pending && peer.uid == s.approvals.uid
    requires FindPublic(s.store.public, blob).Some?
    ensures var s' := SubmitSign(s, chan, blob, message, flags, peer, scope);
            s.approvals.nextId in s'.pending ==>
              Request(s.approvals.nextId, s.store.tracker.epoch, blob, peer, scope, MsLater(Now(s), 120_000))
              in s'.approvals.queue
  {
    hide FindPublic, AuthorizedSignature, Covered, LiveRequests, LiveGrants, SubmitSign;
    SubmitShape(s, chan, blob, message, flags, peer, scope);
  }

  lemma StrangerWaitsNot(s: Agent, chan: Chan, blob: Blob, message: seq<byte>, flags: nat, peer: Peer,
                         scope: SignScope)
    requires peer.uid != s.approvals.uid
    ensures SubmitSign(s, chan, blob, message, flags, peer, scope).pending == s.pending
  {
  }

  /** A grant the manager holds answers this request now. */
  ghost predicate Granting(s: Agent, c: Client)
    requires c.request.SignData?
  {
    exists i :: 0 <= i < |s.approvals.grants| &&
      Answers(s.approvals.grants[i], s.store.tracker.epoch, c, Now(s))
  }

  /** The positions of the queued requests that have not run out. */
  ghost function Standing(s: Agent): set<nat> {
    set i: nat | i < |s.approvals.queue| && s.approvals.queue[i].deadline > Now(s)
  }

  /** At an open gate: another user, or a key that is not loaded, is refused. A grant that
      answers the request gives the store's own answer. Otherwise it waits for the panel if
      fewer than four requests stand and there is an id left. */
  lemma OpenGateOutcome(s: Agent, c: Client)
    requires Inv(s) && s.phase.Running? && s.gateOpen && c.request.SignData?
    ensures var s' := Step(s, FromClient(c));
            var (blob, message, flags) := (c.request.blob, c.request.message, c.request.flags);
            if !Loaded(s.store, blob) || c.peer.uid != s.approvals.uid then AnsweredWith(s', s.nextChan, Failure)
            else if Granting(s, c) then AnsweredWith(s', s.nextChan, KeyAnswer(s.store, blob, message, flags))
            else if |Standing(s)| >= 4 || s.approvals.nextId >= 0xFFFF_FFFF_FFFF_FFFF
            then AnsweredWith(s', s.nextChan, Failure)
            else Waits(s', s.nextChan, s.approvals.nextId, message, flags)
  {
    NewIdUnused(s);
    hide Inv, Step, AnsweredWith, Waits, KeyAnswer, Authorize, Loaded, Expire, Covered, Granting, Standing;
    LoadedExactly(s.store, c.request.blob);
    GrantingExactly(s, c);
    StandingExactly(s);
    SignOutcome(s, c);
  }

  lemma GrantingExactly(s: Agent, c: Client)
    requires c.request.SignData?
    ensures var live := Expire(s.approvals, Now(s));
            Covered(live.grants, s.store.tracker.epoch, c.request.blob, c.peer, Scope(c)) <==> Granting(s, c)
  {
    var now, gs := Now(s), s.approvals.grants;
    var live := Expire(s.approvals, now).grants;
    if Covered(live, s.store.tracker.epoch, c.request.blob, c.peer, Scope(c)) {
      var i :| 0 <= i < |live| && GrantCovers(live[i], s.store.tracker.epoch, c.request.blob, c.peer, Scope(c));
      assert live[i] in live;
      var j :| 0 <= j < |gs| && gs[j] == live[i];
      assert Answers(gs[j], s.store.tracker.epoch, c, now);
    }
    if Granting(s, c) {
      var j :| 0 <= j < |gs| && Answers(gs[j], s.store.tracker.epoch, c, now);
      assert gs[j] in live;
      var i :| 0 <= i < |live| && live[i] == gs[j];
      assert GrantCovers(live[i], s.store.tracker.epoch, c.request.blob, c.peer, Scope(c));
    }
  }

  lemma StandingExactly(s: Agent)
    ensures |Standing(s)| == |Expire(s.approvals, Now(s)).queue|
    ensures Expire(s.approvals, Now(s)).nextId == s.approvals.nextId
  {
    LiveCount(s.approvals.queue, Now(s));
  }

  lemma {:induction false} LiveCount(queue: seq<Request>, now: nat)
    ensures |set i: nat | i < |queue| && queue[i].deadline > now| == |LiveRequests(queue, now)|
  {
    if queue != [] {
      var n := |queue| - 1;
      var front := queue[..n];
      LiveCount(front, now);
      var before := set i: nat | i < |front| && front[i].deadline > now;
      var all := set i: nat | i < |queue| && queue[i].deadline > now;
      assert all == if queue[n].deadline > now then before + {n} else before;
    }
  }

  // ---- approving ahead of the load ----

  /** Approving a held request records exactly that, for it alone, and answers nobody. */
  lemma ApproveAheadOutcome(s: Agent, id: RequestId, d: GrantDuration)
    requires s.phase.Running? && id in s.held
    ensures var s' := Step(s, FromPanel(ApproveRequest(id, d)));
            && s'.held.Keys == s.held.Keys
            && s'.held[id] == s.held[id].(approved := Some(d))
            && (forall k | k in s.held && k != id :: s'.held[k] == s.held[k])
            && s'.pending == s.pending && s'.approvals == s.approvals && s'.store == s.store
            && Observe(s'.log).book == Observe(s.log).book
  {
  }

  /** Revoking every grant leaves none, and what was approved ahead is approved only once. */
  lemma RevokeOutcome(s: Agent)
    requires s.phase.Running?
    ensures var s' := Step(s, FromPanel(RevokeGrants));
            && s'.approvals == s.approvals.(grants := []) && s'.held.Keys == s.held.Keys
            && (forall id | id in s.held ::
                  s'.held[id] == s.held[id].(approved := if s.held[id].approved.Some? then Some(Once) else None))
            && s'.pending == s.pending && s'.store == s.store && s'.listing == s.listing
  {
    assert s.held.Keys == Revoked(s.held).Keys;
  }

  // ---- locking, logging out, loading ----

  /** Nothing waits and nothing is granted any more. */
  predicate Idle(s: Agent) {
    && s.pending == map[] && s.held == map[] && s.listing.None? && s.load.None? && !s.gateOpen
    && s.approvals.queue == [] && s.approvals.grants == []
  }

  /** A lock drops the private keys and keeps the public ones, empties every table, shuts the
      gate, and is acknowledged, with its epoch, when all that is done. */
  lemma LockOutcome(s: Agent, epoch: nat)
    requires Inv(s) && s.phase.Running? && s.handshake
    ensures var s' := Step(s, FromPanel(VaultLocked(epoch)));
            && Idle(s') && s'.store.private == [] && s'.store.public == s.store.public
            && s'.store.tracker.epoch >= epoch && s'.store.tracker.state != Unlocked
            && s'.log.Then? && s'.log.last == Emitted(LockedAck(epoch))
  {
    hide Core, Deactivate;
    CoreStore(s, s.held, Waiting(s));
    LockStaysValid(s, epoch);
    DeactivateKeeps(s, VaultLocked(epoch), Lock(s.store, epoch), "locked");
  }

  lemma LockStaysValid(s: Agent, epoch: nat)
    requires ValidStore(s.store)
    ensures ValidStore(Lock(s.store, epoch)) && ValidStore(Logout(s.store, SatAdd(s.store.tracker.epoch, 1)))
  {
  }

  /** A logout drops the public keys too. */
  lemma LogoutOutcome(s: Agent)
    requires Inv(s) && s.phase.Running? && s.handshake
    ensures var s' := Step(s, FromPanel(VaultLoggedOut));
            Idle(s') && s'.store.private == [] && s'.store.public == [] && s'.store.tracker.state == LoggedOut
  {
    hide Core, Deactivate;
    CoreStore(s, s.held, Waiting(s));
    LockStaysValid(s, 0);
    DeactivateKeeps(s, VaultLoggedOut, Logout(s.store, SatAdd(s.store.tracker.epoch, 1)), "logged-out");
  }

  /** The first hello opens the gate and is answered; a second one ends the loop. */
  lemma HelloOutcome(s: Agent)
    requires s.phase.Running?
    ensures var s' := Step(s, FromPanel(Hello));
            if s.handshake then s'.phase == Failed
            else
              && s'.phase == Running && s'.handshake && s'.gateOpen
              && s'.log == Then(Then(s.log, Told(Hello)), Emitted(Ready))
  {
  }

  /** A load begins only while none is under way. It shuts the gate, fails what is pending and
      voids what is queued and granted, whatever the nonce; held requests and the keys stay.
      Thirty-two hexadecimal digits are a nonce, and anything else ends the loop. */
  lemma LoadBeginOutcome(s: Agent, epoch: nat, nonce: seq<byte>)
    requires s.phase.Running?
    ensures var s' := Step(s, FromPanel(KeyLoadBegin(epoch, nonce)));
            if s.load.Some? then s'.phase == Failed
            else
              && !s'.gateOpen && s'.pending == map[] && s'.approvals.queue == [] && s'.approvals.grants == []
              && s'.held == s.held && s'.listing == s.listing && s'.store == s.store
              && (if IsNonce(nonce)
                  then s'.phase.Running? && s'.load == Some(ActiveLoad(epoch, nonce, None, false, None))
                  else s'.phase == Failed)
  {
    hide IsNonce, ValidNonce, FailPending;
    NonceExact(nonce);
    var s1 := Note(s, Told(KeyLoadBegin(epoch, nonce))).(gateOpen := false, approvals := InvalidateAll(s.approvals));
    FailedPending(s1);
  }

  lemma FailedPending(s: Agent)
    ensures FailPending(s) == s.(pending := map[], log := FailPending(s).log)
  {
    FailEachSends(s.(pending := map[]), s.pending, Ascending(s.pending.Keys));
  }

  // ---- the end of a load ----

  /** A load the panel has ended waits five seconds for its payload. */
  lemma LoadEndOutcome(s: Agent, epoch: nat)
    requires s.phase.Running? && s.load.Some? && s.load.value.epoch == epoch && s.load.value.payload.None?
    ensures var s' := Step(s, FromPanel(KeyLoadEnd(epoch, true)));
            s'.load == Some(s.load.value.(ended := true, deadline := Some(MsLater(Now(s), 5_000))))
  {
  }

  // ---- a tick ----

  /** A pending request stays only while its client is there and its two minutes in the queue
      are not over. */
  ghost predicate PendingStays(s: Agent, id: RequestId, closed: set<Chan>) {
    && id in s.pending && s.pending[id].chan !in closed
    && exists r :: r in s.approvals.queue && r.id == id && r.deadline > Now(s)
  }

  ghost predicate HeldStays(s: Agent, id: RequestId, closed: set<Chan>) {
    id in s.held && s.held[id].chan !in closed && s.held[id].deadline > Now(s)
  }

  ghost predicate ListingStays(w: HeldListing, closed: set<Chan>, now: nat) {
    w.deadline > now && exists i :: 0 <= i < |w.waiting| && w.waiting[i] !in closed
  }

  /** A tick drops exactly what has run out or whose client has left: pending and held
      requests, the listing and grants. A load that is overdue is given up first, with
      everything that waits for it, and then the keys are locked. */
  lemma TickOutcome(s: Agent, closed: set<Chan>)
    requires s.phase.Running?
    ensures var s' := Step(s, Tick(closed));
            var late := Overdue(s, Now(s));
            && (forall id :: id in s'.pending <==> PendingStays(s, id, closed))
            && (forall id | id in s'.pending :: s'.pending[id] == s.pending[id])
            && (forall id :: id in s'.held <==> !late && HeldStays(s, id, closed))
            && (forall id | id in s'.held :: s'.held[id] == s.held[id])
            && s'.listing == (if !late && s.listing.Some? && ListingStays(s.listing.value, closed, Now(s))
                              then s.listing else None)
            && (forall g :: g in s'.approvals.grants <==>
                  g in s.approvals.grants && (g.expires.Some? ==> g.expires.value > Now(s)))
            && s'.store.public == s.store.public
            && (if late then s'.store.private == [] && !s'.gateOpen && s'.load == None
                else s'.store == s.store && s'.gateOpen == s.gateOpen)
  {
    hide Step, OnTick, ExpireLoad, Expire, IsQueued, ListingDone, Sent, Refusals;
    var now := Now(s);
    TickIs(s, closed);
    TickStages(s, closed);
    var s0 := ReadClock(s).(approvals := Expire(s.approvals, now));
    var s1 := ExpireLoad(s0, now);
    ExpireLoadSends(s0, now);
    if Overdue(s0, now) { OverdueLocks(s0, now); }
    TickEndTables(s1, closed, now);
    GrantsLive(s.approvals, now);
    forall id
      ensures IsQueued(s1.approvals, id) <==> exists r :: r in s.approvals.queue && r.id == id && r.deadline > now
    {
      QueuedLive(s.approvals, id, now);
    }
    ListingEnds(s1, closed, now);
  }

  lemma GrantsLive(m: Manager, now: nat)
    ensures forall g :: g in Expire(m, now).grants <==>
              g in m.grants && (g.expires.Some? ==> g.expires.value > now)
  {
  }

  lemma OverdueLocks(s: Agent, now: nat)
    requires Overdue(s, now)
    ensures var s' := ExpireLoad(s, now);
            s'.store.private == [] && s'.store.public == s.store.public
  {
    hide CancelHeld, ReleaseListing, ReleaseHeld, AddAll, AnnounceEach, ValidNonce, Sent, Refusals;
    var s1 := s.(load := Some(s.load.value.(payload := Some(ReadFailed))));
    var s2 := FinishLoad(s1).0;
    CancelHeldSends(s2, "load-failed");
    ReleaseListingSends(CancelHeld(s2, "load-failed"), "load-failed");
  }

  lemma TickIs(s: Agent, closed: set<Chan>)
    requires s.phase.Running?
    ensures Step(s, Tick(closed)) == OnTick(s, closed)
  {
    hide OnTick;
  }

  lemma QueuedLive(m: Manager, id: RequestId, now: nat)
    ensures IsQueued(Expire(m, now), id) <==> exists r :: r in m.queue && r.id == id && r.deadline > now
  {
    var q := Expire(m, now).queue;
    if IsQueued(Expire(m, now), id) {
      var r := q[Position(q, id)];
      assert r in q;
    }
    if r: Request :| r in m.queue && r.id == id && r.deadline > now {
      assert r in q;
      var i :| 0 <= i < |q| && q[i] == r;
      assert Position(q, id) <= i;
    }
  }

  lemma ListingEnds(s: Agent, closed: set<Chan>, now: nat)
    ensures s.listing.Some? ==>
              (ListingDone(s.listing.value, closed, now) <==> !ListingStays(s.listing.value, closed, now))
  {
  }

  lemma {:induction false} WithdrawTables(s: Agent, ids: seq<RequestId>)
    ensures var s' := WithdrawEach(s, ids);
            && (forall id :: id in s'.pending <==> id in s.pending && id !in ids)
            && (forall id | id in s'.pending :: s'.pending[id] == s.pending[id])
  {
    if ids != [] {
      var front, id := ids[..|ids| - 1], ids[|ids| - 1];
      hide Disconnect;
      WithdrawTables(s, front);
      assert ids == front + [id];
    }
  }

  lemma {:induction false} DropTables(s: Agent, ids: seq<RequestId>)
    ensures var s' := DropEach(s, ids);
            && (forall id :: id in s'.held <==> id in s.held && id !in ids)
            && (forall id | id in s'.held :: s'.held[id] == s.held[id])
  {
    if ids != [] {
      var front, id := ids[..|ids| - 1], ids[|ids| - 1];
      DropTables(s, front);
      assert ids == front + [id];
    }
  }

  lemma WithdrawnTables(s: Agent, closed: set<Chan>)
    ensures var s' := Withdrawn(s, closed);
            && (forall id :: id in s'.pending <==>
                  id in s.pending && s.pending[id].chan !in closed && IsQueued(s.approvals, id))
            && (forall id | id in s'.pending :: s'.pending[id] == s.pending[id])
            && s'.held == s.held && s'.listing == s.listing && s'.approvals.grants == s.approvals.grants
            && s'.store == s.store && s'.load == s.load && s'.gateOpen == s.gateOpen
  {
    hide WithdrawEach, IsQueued, Sent, Refusals;
    var gone := Ascending(ExpiredIds(s, closed));
    WithdrawTables(s, gone);
    WithdrawEachSends(s, gone);
  }

  lemma DroppedTables(s: Agent, closed: set<Chan>, now: nat)
    ensures var s' := Dropped(s, closed, now);
            && (forall id :: id in s'.held <==>
                  id in s.held && s.held[id].chan !in closed && s.held[id].deadline > now)
            && (forall id | id in s'.held :: s'.held[id] == s.held[id])
            && s'.pending == s.pending && s'.listing == s.listing && s'.approvals == s.approvals
            && s'.store == s.store && s'.load == s.load && s'.gateOpen == s.gateOpen
  {
    hide DropEach, Sent, Refusals;
    DropTables(s, Ascending(StaleIds(s, closed, now)));
    DroppedSends(s, closed, now);
  }

  lemma RelistedTables(s: Agent, closed: set<Chan>, now: nat)
    ensures var s' := EmitGrants(Relisted(s, closed, now));
            && s'.listing == (if s.listing.Some? && ListingDone(s.listing.value, closed, now) then None else s.listing)
            && s'.pending == s.pending && s'.held == s.held && s'.approvals == s.approvals
            && s'.store == s.store && s'.load == s.load && s'.gateOpen == s.gateOpen
  {
    hide ReleaseListing, ListingDone, GrantIds, Sent, Refusals;
    ReleaseListingSends(s, "withdrawn");
  }

  /** The tick after the load has been dealt with. */
  lemma TickEndTables(s: Agent, closed: set<Chan>, now: nat)
    ensures var s' := EmitGrants(Relisted(Dropped(Withdrawn(s, closed), closed, now), closed, now));
            && (forall id :: id in s'.pending <==>
                  id in s.pending && s.pending[id].chan !in closed && IsQueued(s.approvals, id))
            && (forall id | id in s'.pending :: s'.pending[id] == s.pending[id])
            && (forall id :: id in s'.held <==>
                  id in s.held && s.held[id].chan !in closed && s.held[id].deadline > now)
            && (forall id | id in s'.held :: s'.held[id] == s.held[id])
            && s'.listing == (if s.listing.Some? && ListingDone(s.listing.value, closed, now) then None else s.listing)
            && s'.approvals.grants == s.approvals.grants
            && s'.store == s.store && s'.load == s.load && s'.gateOpen == s.gateOpen
  {
    hide Withdrawn, Dropped, Relisted, EmitGrants, ListingDone, IsQueued;
    WithdrawnTables(s, closed);
    var s1 := Withdrawn(s, closed);
    DroppedTables(s1, closed, now);
    RelistedTables(Dropped(s1, closed, now), closed, now);
  }
}
