/** When the clock ticks at least once in a request's lifetime, few requests are ever
    pending, and every event fits the panel's channel. */
module AgentTimely {
  import opened Base
  import opened KeyStoreModel
  import opened ApprovalModel
  import opened ObserverModel
  import opened AgentModel
  import opened AgentSends
  import opened AgentSafety
  import opened AgentTheorems
  import opened AgentBurst

  ghost function QueueIds(queue: seq<Request>): set<RequestId> {
    set r | r in queue :: r.id
  }

  /** Every pending id is queued or was pending at the last tick (`before`), and every other
      queued request lives until `limit` at least. */
  ghost predicate Tracked(pending: set<RequestId>, m: Manager, before: set<RequestId>, limit: nat) {
    && (forall id | id in pending :: id < m.nextId && (id in before || id in QueueIds(m.queue)))
    && (forall r | r in m.queue :: r.id in before || r.deadline >= limit)
  }

  ghost predicate TrackedIn(s: Agent, before: set<RequestId>, limit: nat) {
    Tracked(s.pending.Keys, s.approvals, before, limit)
  }

  /** The clock readings from `lo` to `hi` fall in the lifetime that ends at `limit`. */
  ghost predicate InTime(clock: nat -> nat, lo: nat, hi: nat, limit: nat) {
    && REQUEST_LIFETIME_MS <= limit <= U64_MAX
    && forall k | lo <= k < hi :: limit - REQUEST_LIFETIME_MS <= clock(k) < limit
  }

  // ---- the queue ----

  lemma ExpireTracked(pending: set<RequestId>, m: Manager, now: nat, before: set<RequestId>, limit: nat)
    requires Tracked(pending, m, before, limit) && now < limit
    ensures Tracked(pending, Expire(m, now), before, limit)
  {
    var m' := Expire(m, now);
    forall id | id in pending && id !in before ensures id in QueueIds(m'.queue) {
      var r :| r in m.queue && r.id == id;
      assert r in m'.queue;
    }
  }

  lemma PushTracked(pending: set<RequestId>, m: Manager, r: Request, before: set<RequestId>, limit: nat)
    requires Tracked(pending, m, before, limit) && r.deadline >= limit && r.id == m.nextId
    ensures var m' := m.(nextId := m.nextId + 1, queue := m.queue + [r]);
            && Tracked(pending, m', before, limit) && Tracked(pending + {r.id}, m', before, limit)
            && r.id !in pending
  {
    var m' := m.(nextId := m.nextId + 1, queue := m.queue + [r]);
    assert r in m'.queue;
    forall id | id in QueueIds(m.queue) ensures id in QueueIds(m'.queue) {
      var x :| x in m.queue && x.id == id;
      assert x in m'.queue;
    }
  }

  /** Taking requests out of the queue that are not pending, or no longer. */
  lemma ShrinkTracked(pending: set<RequestId>, m: Manager, pending': set<RequestId>, m': Manager,
                      before: set<RequestId>, limit: nat)
    requires Tracked(pending, m, before, limit) && m'.nextId >= m.nextId && pending' <= pending
    requires forall r | r in m'.queue :: r in m.queue
    requires forall r | r in m.queue && r !in m'.queue :: r.id !in pending'
    ensures Tracked(pending', m', before, limit)
  {
    forall id | id in pending' && id !in before ensures id in QueueIds(m'.queue) {
      var r :| r in m.queue && r.id == id;
      assert r in m'.queue;
    }
  }

  lemma SubmitTracked(s: Agent, epoch: nat, blob: Blob, peer: Peer, scope: SignScope, before: set<RequestId>,
                      limit: nat)
    requires TrackedIn(s, before, limit) && InTime(s.clock, s.readings, s.readings + 1, limit)
    ensures var (m, submitted) := Submit(s.approvals, epoch, blob, peer, scope, Now(s));
            && Tracked(s.pending.Keys, m, before, limit)
            && (submitted.Queued? ==>
                  submitted.id !in s.pending && Tracked(s.pending.Keys + {submitted.id}, m, before, limit))
  {
    hide Expire, Tracked, Covered;
    var m1 := Expire(s.approvals, Now(s));
    ExpireTracked(s.pending.Keys, s.approvals, Now(s), before, limit);
    var r := Request(m1.nextId, epoch, blob, peer, scope, SatAdd(Now(s), REQUEST_LIFETIME_MS));
    PushTracked(s.pending.Keys, m1, r, before, limit);
  }

  /** A request no longer pending is approved and leaves the queue. */
  lemma ApproveTracked(s: Agent, id: RequestId, chan: Chan, d: GrantDuration, before: set<RequestId>, limit: nat)
    requires TrackedIn(s, before, limit) && InTime(s.clock, s.readings, s.readings + 1, limit) && id !in s.pending
    ensures var s' := ApproveQueued(s, id, chan, d).0;
            && TrackedIn(s', before, limit) && s'.readings == s.readings + 1 && s'.clock == s.clock
            && s'.pending == s.pending && s'.store == s.store
  {
    hide Tracked, Approve;
    ApprovalTracked(s.pending.Keys, s.approvals, id, d, Now(s), before, limit);
  }

  lemma ApprovalTracked(pending: set<RequestId>, m: Manager, id: RequestId, d: GrantDuration, now: nat,
                        before: set<RequestId>, limit: nat)
    requires Tracked(pending, m, before, limit) && now < limit && id !in pending
    ensures Tracked(pending, Approve(m, id, d, now).0, before, limit)
  {
    hide Tracked, Expire, Position;
    var m1 := Expire(m, now);
    ExpireTracked(pending, m, now, before, limit);
    var m2 := Approve(m, id, d, now).0;
    var at := Position(m1.queue, id);
    if at < |m1.queue| {
      forall r | r in m1.queue && r != m1.queue[at] ensures r in m2.queue {
        var k :| 0 <= k < |m1.queue| && m1.queue[k] == r;
        assert r == m2.queue[if k < at then k else k - 1];
      }
    }
    ShrinkTracked(pending, m1, pending, m2, before, limit);
  }

  lemma SubmitSignTracked(s: Agent, chan: Chan, blob: Blob, message: seq<byte>, flags: nat, peer: Peer,
                          scope: SignScope,
                          before: set<RequestId>, limit: nat)
    requires TrackedIn(s, before, limit) && InTime(s.clock, s.readings, s.readings + 1, limit)
    ensures var s' := SubmitSign(s, chan, blob, message, flags, peer, scope);
            && TrackedIn(s', before, limit) && s'.readings == s.readings + 1 && s'.clock == s.clock
  {
    hide Tracked, Submit, FindPublic, AuthorizedSignature, Disconnect;
    SubmitTracked(s, s.store.tracker.epoch, blob, peer, scope, before, limit);
    var (m, submitted) := Submit(s.approvals, s.store.tracker.epoch, blob, peer, scope, Now(s));
    if submitted.Queued? {
      DisconnectTracked(s.pending.Keys, m, submitted.id, before, limit);
      assert s.pending.Keys - {submitted.id} == s.pending.Keys;
      assert s.pending[submitted.id := PendingSign(chan, message, flags)].Keys == s.pending.Keys + {submitted.id};
    }
  }

  lemma DisconnectTracked(pending: set<RequestId>, m: Manager, id: RequestId, before: set<RequestId>, limit: nat)
    requires Tracked(pending, m, before, limit)
    ensures Tracked(pending - {id}, Disconnect(m, id), before, limit)
  {
    ShrinkTracked(pending, m, pending - {id}, Disconnect(m, id), before, limit);
  }

  lemma SubmitApprovedReads(s: Agent, h: HeldSign, d: GrantDuration)
    ensures var s' := SubmitApproved(s, h, d);
            var queued := Submit(s.approvals, s.store.tracker.epoch, h.blob, h.peer, h.scope, Now(s)).1.Queued?;
            s'.readings == s.readings + 1 + Count(queued) && s'.clock == s.clock
  {
    hide Submit, AuthorizedSignature, Approve;
  }

  lemma SubmitApprovedTracked(s: Agent, h: HeldSign, d: GrantDuration, before: set<RequestId>, limit: nat)
    requires TrackedIn(s, before, limit) && InTime(s.clock, s.readings, SubmitApproved(s, h, d).readings, limit)
    ensures TrackedIn(SubmitApproved(s, h, d), before, limit)
  {
    hide Tracked, Submit, AuthorizedSignature, ApproveQueued;
    SubmitApprovedReads(s, h, d);
    SubmitTracked(s, s.store.tracker.epoch, h.blob, h.peer, h.scope, before, limit);
    var (m, submitted) := Submit(s.approvals, s.store.tracker.epoch, h.blob, h.peer, h.scope, Now(s));
    if submitted.Queued? {
      ApproveTracked(ReadClock(s).(approvals := m), submitted.id, h.chan, d, before, limit);
    }
  }

  lemma ReleaseOneReads(s: Agent, id: RequestId, h: HeldSign)
    ensures var s' := ReleaseOne(s, id, h);
            s.readings <= s'.readings && s'.clock == s.clock
  {
    hide Authorize, SubmitApproved, SubmitSign, Submit;
    var s1 := Emit(s, RequestCancelled(id, "released"));
    SubmitSignReads(s1, h.chan, h.blob, h.message, h.flags, h.peer, h.scope);
    if h.approved.Some? { SubmitApprovedReads(s1, h, h.approved.value); }
  }

  lemma ReleaseOneTracked(s: Agent, id: RequestId, h: HeldSign, before: set<RequestId>, limit: nat)
    requires TrackedIn(s, before, limit) && InTime(s.clock, s.readings, ReleaseOne(s, id, h).readings, limit)
    ensures TrackedIn(ReleaseOne(s, id, h), before, limit)
  {
    hide Tracked, SubmitSign, SubmitApproved, Authorize;
    var s1 := Emit(s, RequestCancelled(id, "released"));
    if Authorize(s.store, h.blob).Some? {
      if h.approved.Some? {
        SubmitApprovedTracked(s1, h, h.approved.value, before, limit);
      } else {
        SubmitSignReads(s1, h.chan, h.blob, h.message, h.flags, h.peer, h.scope);
        SubmitSignTracked(s1, h.chan, h.blob, h.message, h.flags, h.peer, h.scope, before, limit);
      }
    }
  }

  lemma SubmitSignReads(s: Agent, chan: Chan, blob: Blob, message: seq<byte>, flags: nat, peer: Peer, scope: SignScope)
    ensures var s' := SubmitSign(s, chan, blob, message, flags, peer, scope);
            s'.readings == s.readings + 1 && s'.clock == s.clock
  {
    hide Submit, FindPublic, AuthorizedSignature;
  }

  lemma {:induction false} ReleaseEachReads(s: Agent, held: map<RequestId, HeldSign>, ids: seq<RequestId>)
    requires forall id | id in ids :: id in held
    ensures var s' := ReleaseEach(s, held, ids);
            s.readings <= s'.readings && s'.clock == s.clock
  {
    hide ReleaseOne;
    if ids != [] {
      var front, id := ids[..|ids| - 1], ids[|ids| - 1];
      ReleaseEachReads(s, held, front);
      ReleaseOneReads(ReleaseEach(s, held, front), id, held[id]);
    }
  }

  lemma {:induction false} ReleaseEachTracked(s: Agent, held: map<RequestId, HeldSign>, ids: seq<RequestId>,
                                              before: set<RequestId>, limit: nat)
    requires forall id | id in ids :: id in held
    requires TrackedIn(s, before, limit) && InTime(s.clock, s.readings, ReleaseEach(s, held, ids).readings, limit)
    ensures TrackedIn(ReleaseEach(s, held, ids), before, limit)
  {
    hide ReleaseOne, TrackedIn;
    if ids != [] {
      var front, id := ids[..|ids| - 1], ids[|ids| - 1];
      var s1 := ReleaseEach(s, held, front);
      ReleaseEachReads(s, held, front);
      ReleaseOneReads(s1, id, held[id]);
      ReleaseEachTracked(s, held, front, before, limit);
      ReleaseOneTracked(s1, id, held[id], before, limit);
    }
  }

  // ---- settling ----

  lemma {:induction false} SettleEachPending(s: Agent, released: seq<Request>)
    ensures SettleEach(s, released).pending.Keys == s.pending.Keys - QueueIds(released)
  {
    hide AuthorizedSignature;
    if released != [] {
      var front, r := released[..|released| - 1], released[|released| - 1];
      SettleEachPending(s, front);
      assert released == front + [r];
      assert QueueIds(released) == QueueIds(front) + {r.id};
    }
  }

  lemma SettleTracked(s: Agent, before: set<RequestId>, limit: nat)
    requires TrackedIn(s, before, limit) && InTime(s.clock, s.readings, s.readings + 1, limit)
    ensures var s' := SettleGranted(s);
            TrackedIn(s', before, limit) && s'.readings == s.readings + 1 && s'.clock == s.clock
  {
    hide Tracked, SettleEach, Expire;
    var m := Expire(s.approvals, Now(s));
    ExpireTracked(s.pending.Keys, s.approvals, Now(s), before, limit);
    var (m', released) := ReleaseGranted(s.approvals, Now(s));
    var s1 := ReadClock(s).(approvals := m');
    SettleEachSends(s1, released);
    SettleEachPending(s1, released);
    forall r | r in m.queue && r !in m'.queue ensures r.id !in SettleEach(s1, released).pending.Keys {
      assert r in released;
    }
    ShrinkTracked(s.pending.Keys, m, SettleEach(s1, released).pending.Keys, m', before, limit);
  }

  lemma ReleaseHeldTracked(s: Agent, before: set<RequestId>, limit: nat)
    requires TrackedIn(s, before, limit) && InTime(s.clock, s.readings, ReleaseHeld(s).readings, limit)
    ensures TrackedIn(ReleaseHeld(s), before, limit)
  {
    hide TrackedIn, SettleGranted, ReleaseEach, InTime;
    var ids := Ascending(s.held.Keys);
    var s0 := s.(held := map[]);
    var s1 := ReleaseEach(s0, s.held, ids);
    ReleaseEachReads(s0, s.held, ids);
    SettleReads(s1);
    SplitTime(s.clock, s.readings, s1.readings, ReleaseHeld(s).readings, limit);
    assert TrackedIn(s0, before, limit) by { HeldApart(s, before, limit); }
    ReleaseEachTracked(s0, s.held, ids, before, limit);
    SettleTracked(s1, before, limit);
  }

  lemma HeldApart(s: Agent, before: set<RequestId>, limit: nat)
    ensures TrackedIn(s.(held := map[]), before, limit) == TrackedIn(s, before, limit)
  {
  }

  lemma SettleReads(s: Agent)
    ensures SettleGranted(s).readings == s.readings + 1 && SettleGranted(s).clock == s.clock
  {
    hide SettleEach, ReleaseGranted;
    var (m, released) := ReleaseGranted(s.approvals, Now(s));
    SettleEachSends(ReadClock(s).(approvals := m), released);
  }

  lemma SplitTime(clock: nat -> nat, lo: nat, mid: nat, hi: nat, limit: nat)
    requires InTime(clock, lo, hi, limit) && lo <= mid <= hi
    ensures InTime(clock, lo, mid, limit) && InTime(clock, mid, hi, limit)
  {
  }

  // ---- one event that is not a tick ----

  /** From `s` to `s'` the clock was read in order, and what was tracked still is, if it was
      read in time. */
  ghost predicate Timed(s': Agent, s: Agent, before: set<RequestId>, limit: nat) {
    && s.readings <= s'.readings && s'.clock == s.clock
    && (TrackedIn(s, before, limit) && InTime(s.clock, s.readings, s'.readings, limit) ==> TrackedIn(s', before, limit))
  }

  lemma SettleLoadTimed(s: Agent, before: set<RequestId>, limit: nat)
    ensures Timed(SettleLoad(s), s, before, limit)
  {
    hide Tracked, InTime, FinishLoad, ReleaseHeld, CancelHeld, ReleaseListing, Sent, Refusals;
    FinishLoadSends(s);
    var (s1, outcome) := FinishLoad(s);
    ReleaseHeldReads(s1);
    ReleaseListingSends(ReleaseHeld(s1), "released");
    CancelSends(s1, "load-failed");
    if outcome.Published? && TrackedIn(s, before, limit) && InTime(s.clock, s.readings, SettleLoad(s).readings, limit) {
      ReleaseHeldTracked(s1, before, limit);
    }
  }

  lemma ReleaseHeldReads(s: Agent)
    ensures s.readings <= ReleaseHeld(s).readings && ReleaseHeld(s).clock == s.clock
  {
    hide ReleaseEach, SettleGranted;
    ReleaseEachReads(s.(held := map[]), s.held, Ascending(s.held.Keys));
    SettleReads(ReleaseEach(s.(held := map[]), s.held, Ascending(s.held.Keys)));
  }

  lemma ReserveTracked(s: Agent, before: set<RequestId>, limit: nat)
    ensures TrackedIn(s, before, limit) ==> Tracked(s.pending.Keys, Reserve(s.approvals).0, before, limit)
  {
  }

  lemma ListingTimed(s: Agent, chan: Chan, c: Client, before: set<RequestId>, limit: nat)
    ensures Timed(HandleListing(s, chan, c), s, before, limit)
  {
    hide Tracked, InTime, ListKeys, Reserve;
    ReserveTracked(s, before, limit);
  }

  lemma HoldTimed(s: Agent, chan: Chan, c: Client, before: set<RequestId>, limit: nat)
    requires c.request.SignData?
    ensures Timed(HoldSign(s, chan, c), s, before, limit)
  {
    hide Tracked, InTime, FindPublic, Reserve;
    ReserveTracked(s, before, limit);
  }

  lemma ClientTimed(s: Agent, c: Client, before: set<RequestId>, limit: nat)
    ensures Timed(HandleClient(s, c), s, before, limit)
  {
    hide Tracked, InTime, SubmitSign, HandleListing, HoldSign, Authorize;
    var chan := s.nextChan;
    var s1 := Note(s.(nextChan := chan + 1), Delivered(chan, c));
    ListingTimed(s1, chan, c, before, limit);
    if c.request.SignData? {
      HoldTimed(s1, chan, c, before, limit);
      SubmitSignReads(s1, chan, c.request.blob, c.request.message, c.request.flags, c.peer, Scope(c));
      if TrackedIn(s, before, limit) && InTime(s.clock, s.readings, s.readings + 1, limit) {
        SubmitSignTracked(s1, chan, c.request.blob, c.request.message, c.request.flags, c.peer, Scope(c), before,
                          limit);
      }
    }
  }

  lemma ApproveTimed(s: Agent, id: RequestId, d: GrantDuration, before: set<RequestId>, limit: nat)
    ensures Timed(OnApprove(s, id, d), s, before, limit)
  {
    hide Tracked, InTime, AuthorizedSignature, SettleGranted, ApproveQueued;
    if id !in s.held && id in s.pending {
      var sign := s.pending[id];
      var s0 := s.(pending := s.pending - {id});
      var (s1, a) := ApproveQueued(s0, id, sign.chan, d);
      var s2 := Answer(s1, sign.chan, a, sign.message, sign.flags);
      ApproveReads(s0, id, sign.chan, d);
      SettleReads(s2);
      if TrackedIn(s, before, limit) && InTime(s.clock, s.readings, OnApprove(s, id, d).readings, limit) {
        SplitTime(s.clock, s.readings, s.readings + 1, OnApprove(s, id, d).readings, limit);
        FewerPending(s, id, before, limit);
        ApproveTracked(s0, id, sign.chan, d, before, limit);
        if d != Once { SettleTracked(s2, before, limit); }
      }
    }
  }

  lemma ApproveReads(s: Agent, id: RequestId, chan: Chan, d: GrantDuration)
    ensures var s' := ApproveQueued(s, id, chan, d).0;
            s'.readings == s.readings + 1 && s'.clock == s.clock
  {
    hide Approve;
  }

  lemma FewerPending(s: Agent, id: RequestId, before: set<RequestId>, limit: nat)
    requires TrackedIn(s, before, limit)
    ensures TrackedIn(s.(pending := s.pending - {id}), before, limit)
  {
  }

  lemma DenyTimed(s: Agent, id: RequestId, before: set<RequestId>, limit: nat)
    ensures Timed(OnDeny(s, id), s, before, limit)
  {
    hide Tracked, InTime, ReleaseListing, Disconnect, Sent, Refusals;
    var s1 := s.(approvals := Disconnect(s.approvals, id));
    var s2 := if id in s.pending then Reply(s1.(pending := s.pending - {id}), s.pending[id].chan, Failure) else s1;
    var s3 := if id in s.held then Reply(s2.(held := s.held - {id}), s.held[id].chan, Failure) else s2;
    ReleaseListingSends(s3, "cancelled");
    if TrackedIn(s, before, limit) {
      DisconnectTracked(s.pending.Keys, s.approvals, id, before, limit);
      assert s2.pending.Keys == s.pending.Keys - {id};
    }
  }

  lemma EmptyTracked(s: Agent, before: set<RequestId>, limit: nat)
    requires s.pending == map[] && s.approvals.queue == []
    ensures TrackedIn(s, before, limit)
  {
  }

  lemma DrainTimed(s: Agent, reason: string, before: set<RequestId>, limit: nat)
    requires s.approvals == InvalidateAll(s.approvals)
    ensures var s' := ReleaseListing(CancelHeld(FailPending(s), reason), reason);
            s'.readings == s.readings && s'.clock == s.clock && TrackedIn(s', before, limit)
  {
    hide Tracked, FailPending, CancelHeld, ReleaseListing, Sent, Refusals;
    DrainSends(s, reason);
    EmptyTracked(ReleaseListing(CancelHeld(FailPending(s), reason), reason), before, limit);
  }

  lemma LoadBeginTimed(s: Agent, epoch: nat, loadId: seq<byte>, before: set<RequestId>, limit: nat)
    ensures Timed(OnLoadBegin(s, epoch, loadId), s, before, limit)
  {
    hide Tracked, InTime, FailPending, Sent, Refusals;
    var s1 := s.(gateOpen := false, approvals := InvalidateAll(s.approvals));
    FailPendingSends(s1);
    EmptyTracked(FailPending(s1), before, limit);
  }

  lemma LoadEndTimed(s: Agent, epoch: nat, ok: bool, before: set<RequestId>, limit: nat)
    ensures Timed(OnLoadEnd(s, epoch, ok), s, before, limit)
  {
    hide Tracked, SettleLoad, CancelHeld, ReleaseListing, Sent, Refusals;
    CancelSends(s.(load := None, store := Lock(s.store, epoch), gateOpen := false), "load-failed");
    if s.load.Some? {
      SettleLoadTimed(Ended(s), before, limit);
    }
  }

  lemma ControlTimed(s: Agent, c: Control, before: set<RequestId>, limit: nat)
    ensures Timed(OnControl(s, c), s, before, limit)
  {
    hide Tracked, InTime, FailPending, CancelHeld, ReleaseListing, OnApprove, OnDeny, OnLoadBegin, OnLoadEnd;
    var s1 := Note(s, Told(c));
    match c
    case Hello =>
    case Options(_) =>
    case VaultLocked(epoch) =>
      DrainTimed(s1.(gateOpen := false, load := None, store := Lock(s.store, epoch),
                     approvals := InvalidateAll(s.approvals)),
                 "locked", before, limit);
    case VaultLoggedOut =>
      DrainTimed(s1.(gateOpen := false, load := None, store := Logout(s.store, SatAdd(s.store.tracker.epoch, 1)),
                     approvals := InvalidateAll(s.approvals)), "logged-out", before, limit);
    case ApproveRequest(id, d) => ApproveTimed(s1, id, d, before, limit);
    case Deny(id) => DenyTimed(s1, id, before, limit);
    case UnlockCancelled(id) => DenyTimed(s1, id, before, limit);
    case RevokeGrants => GrantsApart(s, RevokeAllGrants(s.approvals), before, limit);
    case RevokeOne(g) => GrantsApart(s, RevokeGrant(s.approvals, g), before, limit);
    case Shutdown => DrainTimed(s1.(approvals := InvalidateAll(s.approvals), load := None), "shutdown", before, limit);
    case KeyLoadBegin(epoch, loadId) => LoadBeginTimed(s1, epoch, loadId, before, limit);
    case KeyLoadEnd(epoch, ok) => LoadEndTimed(s1, epoch, ok, before, limit);
  }

  lemma GrantsApart(s: Agent, m: Manager, before: set<RequestId>, limit: nat)
    requires m.queue == s.approvals.queue && m.nextId == s.approvals.nextId
    ensures TrackedIn(s, before, limit) ==> Tracked(s.pending.Keys, m, before, limit)
  {
  }

  lemma StepTimed(s: Agent, e: Event, before: set<RequestId>, limit: nat)
    requires !e.Tick?
    ensures Timed(Step(s, e), s, before, limit)
  {
    hide Tracked, InTime, OnControl, HandleClient, SettleLoad, FailPending, CancelHeld, ReleaseListing;
    match e
    case FromPanel(c) => ControlTimed(s, c, before, limit);
    case PanelClosed =>
      DrainTimed(Note(s, Told(Shutdown)).(approvals := InvalidateAll(s.approvals), load := None), "shutdown", before,
                 limit);
    case PanelGarbled =>
    case FromClient(c) => ClientTimed(s, c, before, limit);
    case FromFifo(epoch, payload) =>
      if s.load.Some? { SettleLoadTimed(s.(load := Some(s.load.value.(payload := Some(payload)))), before, limit); }
  }

  // ---- a tick ----

  ghost function IdsOf(ids: seq<RequestId>): set<RequestId> {
    set id | id in ids
  }

  /** The request is withdrawn from both tables, and nothing else moves. */
  ghost predicate TakenBack(s': Agent, s: Agent, ids: set<RequestId>) {
    && s'.pending.Keys == s.pending.Keys - ids
    && s'.approvals.nextId == s.approvals.nextId && s'.readings == s.readings && s'.clock == s.clock
    && (forall r | r in s.approvals.queue && r.id !in ids :: r in s'.approvals.queue)
  }

  ghost function WithdrawOne(s: Agent, id: RequestId): Agent {
    var s := s.(approvals := Disconnect(s.approvals, id));
    var s := if id in s.pending then Reply(s.(pending := s.pending - {id}), s.pending[id].chan, Failure) else s;
    Emit(s, RequestCancelled(id, "withdrawn"))
  }

  lemma WithdrawOneTables(s: Agent, id: RequestId)
    ensures TakenBack(WithdrawOne(s, id), s, {id})
  {
  }

  lemma {:induction false} WithdrawEachTables(s: Agent, ids: seq<RequestId>)
    ensures TakenBack(WithdrawEach(s, ids), s, IdsOf(ids))
  {
    if ids != [] {
      var front, id := ids[..|ids| - 1], ids[|ids| - 1];
      WithdrawEachTables(s, front);
      assert WithdrawEach(s, ids) == WithdrawOne(WithdrawEach(s, front), id);
      WithdrawTwice(s, WithdrawEach(s, front), ids);
    }
  }

  lemma WithdrawTwice(s: Agent, s1: Agent, ids: seq<RequestId>)
    requires ids != [] && TakenBack(s1, s, IdsOf(ids[..|ids| - 1]))
    ensures TakenBack(WithdrawOne(s1, ids[|ids| - 1]), s, IdsOf(ids))
  {
    hide WithdrawOne;
    var front, id := ids[..|ids| - 1], ids[|ids| - 1];
    WithdrawOneTables(s1, id);
    assert ids == front + [id];
    assert IdsOf(ids) == IdsOf(front) + {id};
  }

  /** What is still pending after a tick is queued. */
  ghost predicate AllQueued(s: Agent) {
    forall id | id in s.pending :: id < s.approvals.nextId && id in QueueIds(s.approvals.queue)
  }

  lemma WithdrawnQueued(s: Agent, closed: set<Chan>)
    requires forall id | id in s.pending :: id < s.approvals.nextId
    ensures AllQueued(Withdrawn(s, closed))
  {
    hide WithdrawEach;
    var gone := ExpiredIds(s, closed);
    var ids := Ascending(gone);
    WithdrawEachTables(s, ids);
    assert IdsOf(ids) == gone;
    var s' := WithdrawEach(s, ids);
    forall id | id in s'.pending ensures id in QueueIds(s'.approvals.queue) {
      assert id !in gone && IsQueued(s.approvals, id);
      var r := s.approvals.queue[Position(s.approvals.queue, id)];
      assert r in s'.approvals.queue;
    }
  }

  lemma TickQueued(s: Agent, closed: set<Chan>)
    requires forall id | id in s.pending :: id < s.approvals.nextId
    ensures var s' := OnTick(s, closed);
            AllQueued(s') && s'.readings == s.readings + 1 && s'.clock == s.clock
  {
    hide ExpireLoad, Withdrawn, Dropped, Relisted, Expire, Sent, Refusals, AllQueued, GrantIds;
    TickStages(s, closed);
    var now := Now(s);
    var s0 := ReadClock(s).(approvals := Expire(s.approvals, now));
    ExpireIds(s.approvals, now);
    ExpireLoadSends(s0, now);
    var s1 := ExpireLoad(s0, now);
    WithdrawnQueued(s1, closed);
    WithdrawnReads(s1, closed);
    var s2 := Withdrawn(s1, closed);
    DroppedSends(s2, closed, now);
    RelistedReads(Dropped(s2, closed, now), closed, now);
    EmitGrantsReads(Relisted(Dropped(s2, closed, now), closed, now));
    QueuedAlike(s2, OnTick(s, closed));
  }

  lemma QueuedAlike(s: Agent, s': Agent)
    requires AllQueued(s) && s'.pending == s.pending && s'.approvals == s.approvals
    ensures AllQueued(s')
  {
  }

  lemma ExpireIds(m: Manager, now: nat)
    ensures Expire(m, now).nextId == m.nextId
  {
  }

  lemma WithdrawnReads(s: Agent, closed: set<Chan>)
    ensures Withdrawn(s, closed).readings == s.readings && Withdrawn(s, closed).clock == s.clock
  {
    WithdrawEachTables(s, Ascending(ExpiredIds(s, closed)));
  }

  lemma RelistedReads(s: Agent, closed: set<Chan>, now: nat)
    ensures var s' := Relisted(s, closed, now);
            && s'.pending == s.pending && s'.approvals == s.approvals
            && s'.readings == s.readings && s'.clock == s.clock
  {
    hide ReleaseListing, Sent, Refusals, ListingDone;
    ReleaseListingSends(s, "withdrawn");
  }

  lemma EmitGrantsReads(s: Agent)
    ensures var s' := EmitGrants(s);
            && s'.pending == s.pending && s'.approvals == s.approvals
            && s'.readings == s.readings && s'.clock == s.clock
  {
  }

  // ---- runs ----

  /** The clock at the last tick, or at the start. */
  ghost function LastTick(s: Agent, events: seq<Event>): nat {
    if events == [] then 0
    else
      var front, e := events[..|events| - 1], events[|events| - 1];
      if e.Tick? then Now(Run(s, front)) else LastTick(s, front)
  }

  /** Between ticks the clock moves on, by less than a request's lifetime. */
  ghost predicate Timely(s: Agent, events: seq<Event>) {
    events != [] ==>
      var front, e := events[..|events| - 1], events[|events| - 1];
      && Timely(s, front)
      && (!e.Tick? ==> InTime(s.clock, Run(s, front).readings, Run(s, events).readings,
                              LastTick(s, front) + REQUEST_LIFETIME_MS))
  }

  /** What was pending at the last tick. */
  ghost function Before(s: Agent, events: seq<Event>): set<RequestId> {
    if events == [] then {}
    else if events[|events| - 1].Tick? then QueueIds(Run(s, events).approvals.queue)
    else Before(s, events[..|events| - 1])
  }

  lemma QueueIdsFew(queue: seq<Request>)
    ensures |QueueIds(queue)| <= |queue|
  {
    if queue != [] {
      var front, r := queue[..|queue| - 1], queue[|queue| - 1];
      QueueIdsFew(front);
      assert queue == front + [r];
      assert QueueIds(queue) == QueueIds(front) + {r.id};
    }
  }

  lemma TickTracks(s: Agent, closed: set<Chan>, before: set<RequestId>, limit: nat, limit': nat)
    requires TrackedIn(s, before, limit) && s.phase.Running?
    ensures var s' := Step(s, Tick(closed));
            TrackedIn(s', QueueIds(s'.approvals.queue), limit') && s'.clock == s.clock
  {
    hide OnTick;
    TickQueued(s, closed);
  }

  lemma {:induction false} TimelyTracked(uid: nat, clock: nat -> nat, events: seq<Event>)
    requires HelloFirst(events) && Timely(Init(uid, clock), events) && Run(Init(uid, clock), events).phase.Running?
    ensures var s0 := Init(uid, clock);
            var s := Run(s0, events);
            && TrackedIn(s, Before(s0, events), LastTick(s0, events) + REQUEST_LIFETIME_MS)
            && |Before(s0, events)| <= MAX_PENDING && s.clock == clock
  {
    hide Step, TrackedIn, InTime, QueueIds;
    var s0 := Init(uid, clock);
    if events == [] {
      EmptyTracked(s0, {}, REQUEST_LIFETIME_MS);
    } else {
      var front, e := events[..|events| - 1], events[|events| - 1];
      var s := Run(s0, front);
      HelloFirstPrefix(events, |events| - 1);
      assert s.phase.Running? by { StillRunning(s, e); }
      TimelyTracked(uid, clock, front);
      var limit := LastTick(s0, front) + REQUEST_LIFETIME_MS;
      if e.Tick? {
        TickTracks(s, e.closed, Before(s0, front), limit, LastTick(s0, events) + REQUEST_LIFETIME_MS);
        QueueIdsFew(Step(s, e).approvals.queue);
        QueueFits(uid, clock, events);
      } else {
        StepTimed(s, e, Before(s0, front), limit);
      }
    }
  }

  lemma StillRunning(s: Agent, e: Event)
    requires Step(s, e).phase.Running?
    ensures s.phase.Running?
  {
  }

  lemma QueueFits(uid: nat, clock: nat -> nat, events: seq<Event>)
    requires HelloFirst(events)
    ensures |Run(Init(uid, clock), events).approvals.queue| <= MAX_PENDING
  {
    hide Run;
    RunKeeps(uid, clock, events);
  }

  lemma FewPending(s: Agent, before: set<RequestId>, limit: nat)
    requires TrackedIn(s, before, limit) && |before| <= MAX_PENDING && |s.approvals.queue| <= MAX_PENDING
    ensures |s.pending| <= 2 * MAX_PENDING
  {
    var queued := QueueIds(s.approvals.queue);
    QueueIdsFew(s.approvals.queue);
    assert s.pending.Keys <= before + queued;
    SubsetSize(s.pending.Keys, before + queued);
    assert |before + queued| <= |before| + |queued|;
    assert |s.pending.Keys| == |s.pending|;
  }

  /** In every run whose clock ticks in time, at most eight requests are pending, and every
      event fits the panel's channel. */
  lemma TimelyRunsFit(uid: nat, clock: nat -> nat, events: seq<Event>, e: Event)
    requires HelloFirst(events + [e]) && Timely(Init(uid, clock), events)
    requires Run(Init(uid, clock), events).phase.Running?
    ensures |Run(Init(uid, clock), events).pending| <= 2 * MAX_PENDING
    ensures Fits(Run(Init(uid, clock), events), e)
  {
    hide Inv, Step, Fits, TrackedIn, Timely, LastTick, Before;
    var s0 := Init(uid, clock);
    var s := Run(s0, events);
    assert (events + [e])[..|events|] == events;
    HelloFirstPrefix(events + [e], |events|);
    TimelyTracked(uid, clock, events);
    QueueFits(uid, clock, events);
    FewPending(s, Before(s0, events), LastTick(s0, events) + REQUEST_LIFETIME_MS);
    EventFitsExactly(uid, clock, events, e);
    LapsedArePending(s, e);
  }

  lemma LapsedArePending(s: Agent, e: Event)
    requires |s.pending| <= 2 * MAX_PENDING
    ensures !Overruns(s, e)
  {
    if e.Tick? {
      SubsetSize(Lapsed(s, e.closed), s.pending.Keys);
      assert |s.pending.Keys| == |s.pending|;
    }
  }
}
