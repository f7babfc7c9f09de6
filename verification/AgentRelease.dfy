/** Requests held for an unlock: released through the approval path, or cancelled; and
    the drains that a lock, a logout, a failed load or a shutdown run. */
module AgentRelease {
  import opened Base
  import opened KeyStoreModel
  import opened ApprovalModel
  import opened ObserverModel
  import opened AgentModel
  import opened AgentInvariant
  import opened AgentArms

  // ---- releasing one request ----

  lemma LiveAppend(queue: seq<Request>, r: Request, now: nat)
    ensures LiveRequests(queue + [r], now) ==
            if r.deadline > now then LiveRequests(queue, now) + [r] else LiveRequests(queue, now)
  {
    assert (queue + [r])[..|queue|] == queue;
  }

  lemma {:induction false} PositionAppend(queue: seq<Request>, r: Request)
    requires forall x | x in queue :: x.id != r.id
    ensures Position(queue + [r], r.id) == |queue|
  {
    forall i | 0 <= i < |queue| ensures (queue + [r])[i].id != r.id {
      assert (queue + [r])[i] in queue;
    }
    assert (queue + [r])[|queue|].id == r.id;
  }

  /** Queueing a fresh request and approving it: it is found last and taken out again,
      unless it has expired in between. */
  lemma ApproveLast(m: Manager, r: Request, d: GrantDuration, now: nat)
    requires forall x | x in m.queue :: x.id != r.id
    ensures var q := m.queue + [r];
            var live := Expire(m, now);
            var q' := Expire(m.(queue := q), now).queue;
            var at := Position(q', r.id);
            if r.deadline > now then at < |q'| && q'[at] == r && Removed(q', at) == live.queue
            else at == |q'| && q' == live.queue
  {
    LiveAppend(m.queue, r, now);
    var live := LiveRequests(m.queue, now);
    PositionAppend(live, r);
    if r.deadline > now {
      assert Removed(live + [r], |live|) == live;
    } else {
      var at := Position(live, r.id);
      if at < |live| {
        assert live[at] in live;
      }
    }
  }

  /** Reserve the next id without using it for a prompt. */
  ghost function IdSkipped(s: Agent): Agent {
    s.(approvals := s.approvals.(nextId := s.approvals.nextId + 1))
  }

  lemma SkipIdKeeps(s: Agent, h: map<RequestId, HeldSign>, f: set<Chan>)
    requires Core(s, h, f)
    ensures Core(IdSkipped(s), h, f)
  {
  }

  /** Queue `r` and approve it at once, at the next clock reading. */
  ghost function ApproveFresh(s: Agent, r: Request, chan: Chan, d: GrantDuration): (Agent, Option<Authorization>) {
    var m := s.approvals.(nextId := s.approvals.nextId + 1, queue := s.approvals.queue + [r]);
    ApproveQueued(s.(approvals := m), r.id, chan, d)
  }

  lemma ApproveFreshShape(s: Agent, r: Request, chan: Chan, d: GrantDuration)
    requires forall x | x in s.approvals.queue :: x.id != r.id
    ensures var s1 := Expired(IdSkipped(s));
            ApproveFresh(s, r, chan, d) == if r.deadline > Now(s) then Consume(s1, chan, r, d) else (s1, None)
  {
    hide ApproveQueued, Position, LiveRequests, LiveGrants;
    var m := s.approvals.(nextId := s.approvals.nextId + 1);
    var s0 := s.(approvals := m.(queue := m.queue + [r]));
    ApproveShape(s0, r.id, chan, d);
    ApproveLast(m, r, d, Now(s));
    var q := Expired(s0).approvals.queue;
    var at := Position(q, r.id);
    if r.deadline > Now(s) {
      assert Expired(s0).(approvals := Expired(s0).approvals.(queue := Removed(q, at))) == Expired(IdSkipped(s));
    } else {
      assert Expired(s0) == Expired(IdSkipped(s));
    }
  }

  lemma ApproveFreshKeeps(s: Agent, h: map<RequestId, HeldSign>, f: set<Chan>, r: Request, chan: Chan,
                          d: GrantDuration, message: seq<byte>, flags: nat)
    requires Core(s, h, f) && Submittable(s, f, chan, r.blob, message, flags, r.peer, r.scope)
    requires chan in Observe(s.log).approved && Observe(s.log).approved[chan] == d
    requires r.epoch == s.store.tracker.epoch && r.id == s.approvals.nextId
    ensures var (s', a) := ApproveFresh(s, r, chan, d);
            Core(Answer(s', chan, a, message, flags), h, f - {chan})
  {
    hide ApproveFresh;
    forall x | x in s.approvals.queue ensures x.id != r.id {
      assert QueuedFor(x, s.pending, s.store.tracker.epoch, Observe(s.log).book);
    }
    ApproveFreshShape(s, r, chan, d);
    SkipIdKeeps(s, h, f);
    ExpiredKeeps(IdSkipped(s), h, f);
    var s1 := Expired(IdSkipped(s));
    if r.deadline > Now(s) {
      AnswerApproved(s1, h, f, chan, r, d, message, flags);
    } else {
      ReplyFloating(s1, h, f, chan, Failure);
    }
  }

  /** Submitting with an approval in hand is: expire, then a grant's answer, a refusal, or
      a request that is queued and approved at once. */
  lemma SubmitApprovedShape(s: Agent, h: HeldSign, d: GrantDuration)
    requires h.peer.uid == s.approvals.uid
    ensures var epoch := s.store.tracker.epoch;
            var s1 := Expired(s);
            SubmitApproved(s, h, d) ==
            if Covered(s1.approvals.grants, epoch, h.blob, h.peer, h.scope) then
              Reply(s1, h.chan, AuthorizedSignature(s.store, Authorization(epoch, h.blob), h.message, h.flags))
            else if NoRoom(s1.approvals) then Reply(s1, h.chan, Failure)
            else
              var (s2, a) :=
                ApproveFresh(s1, NewRequest(s1.approvals, epoch, h.blob, h.peer, h.scope, Now(s)), h.chan, d);
              Answer(s2, h.chan, a, h.message, h.flags)
  {
    hide Submit, ApproveQueued, AuthorizedSignature, Expire;
    SubmitCases(s.approvals, s.store.tracker.epoch, h.blob, h.peer, h.scope, Now(s));
  }

  lemma SubmitApprovedKeeps(s: Agent, hs: map<RequestId, HeldSign>, f: set<Chan>, h: HeldSign, d: GrantDuration)
    requires Core(s, hs, f) && Submittable(s, f, h.chan, h.blob, h.message, h.flags, h.peer, h.scope)
    requires h.chan in Observe(s.log).approved && Observe(s.log).approved[h.chan] == d
    ensures Core(SubmitApproved(s, h, d), hs, f - {h.chan})
  {
    hide SubmitApproved, ApproveFresh;
    SubmitApprovedShape(s, h, d);
    var s1 := Expired(s);
    ExpiredKeeps(s, hs, f);
    if Covered(s1.approvals.grants, s.store.tracker.epoch, h.blob, h.peer, h.scope) {
      AnswerByGrant(s1, hs, f, h.chan, h.blob, h.message, h.flags, h.peer, h.scope);
    } else if NoRoom(s1.approvals) {
      ReplyFloating(s1, hs, f, h.chan, Failure);
    } else {
      var r := NewRequest(s1.approvals, s.store.tracker.epoch, h.blob, h.peer, h.scope, Now(s));
      ApproveFreshKeeps(s1, hs, f, r, h.chan, d, h.message, h.flags);
    }
  }

  lemma ReleaseOneKeeps(s: Agent, h: map<RequestId, HeldSign>, f: set<Chan>, id: RequestId)
    requires Core(s, h, f) && Live(s) && id in h
    ensures Core(ReleaseOne(s, id, h[id]), h - {id}, f)
  {
    var q := h[id];
    var f' := f + {q.chan};
    assert f' - {q.chan} == f;
    var s1 := Emit(s, RequestCancelled(id, "released"));
    EmitNeutral(s, h, f, RequestCancelled(id, "released"));
    FloatHeld(s1, h, f, id);
    if Authorize(s.store, q.blob).None? {
      ReplyFloating(s1, h - {id}, f', q.chan, Failure);
    } else if q.approved.None? {
      SubmitKeeps(s1, h - {id}, f', q.chan, q.blob, q.message, q.flags, q.peer, q.scope);
    } else {
      SubmitApprovedKeeps(s1, h - {id}, f', q, q.approved.value);
    }
  }

  // ---- what a release leaves alone, and how the queue grows ----

  lemma SubmitFrame(s: Agent, chan: Chan, blob: Blob, message: seq<byte>, flags: nat, peer: Peer, scope: SignScope)
    requires FindPublic(s.store.public, blob).Some? && peer.uid == s.approvals.uid
    ensures var s' := SubmitSign(s, chan, blob, message, flags, peer, scope);
            && Same(s', s) && |s'.approvals.queue| <= |s.approvals.queue| + 1
            && (|s.approvals.queue| <= MAX_PENDING ==> |s'.approvals.queue| <= MAX_PENDING)
  {
    SubmitShape(s, chan, blob, message, flags, peer, scope);
  }

  lemma ApproveFrame(s: Agent, id: RequestId, chan: Chan, d: GrantDuration)
    ensures Same(ApproveQueued(s, id, chan, d).0, s)
    ensures |ApproveQueued(s, id, chan, d).0.approvals.queue| <= |s.approvals.queue|
  {
    hide ApproveQueued, Expire, Consume;
    ApproveShape(s, id, chan, d);
    ExpireShorter(s.approvals, Now(s));
    var s1 := Expired(s);
    var at := Position(s1.approvals.queue, id);
    if at < |s1.approvals.queue| {
      ConsumeFrame(s1.(approvals := s1.approvals.(queue := Removed(s1.approvals.queue, at))), chan,
                   s1.approvals.queue[at], d);
    }
  }

  lemma ExpireShorter(m: Manager, now: nat)
    ensures |Expire(m, now).queue| <= |m.queue| && Expire(m, now).uid == m.uid
  {
  }

  lemma SubmitApprovedFrame(s: Agent, h: HeldSign, d: GrantDuration)
    requires h.peer.uid == s.approvals.uid
    ensures Same(SubmitApproved(s, h, d), s)
    ensures |SubmitApproved(s, h, d).approvals.queue| <= |s.approvals.queue| + 1
  {
    hide SubmitApproved, ApproveQueued;
    SubmitApprovedShape(s, h, d);
    var s1 := Expired(s);
    var r := NewRequest(s1.approvals, s.store.tracker.epoch, h.blob, h.peer, h.scope, Now(s));
    var m := s1.approvals.(nextId := s1.approvals.nextId + 1, queue := s1.approvals.queue + [r]);
    ApproveFrame(s1.(approvals := m), r.id, h.chan, d);
  }

  /** Held requests come from the expected user and their key is still listed. */
  lemma ReleaseFrame(s: Agent, id: RequestId, h: HeldSign)
    requires ValidStore(s.store) && h.peer.uid == s.approvals.uid
    ensures Same(ReleaseOne(s, id, h), s)
    ensures |ReleaseOne(s, id, h).approvals.queue| <= |s.approvals.queue| + 1
  {
    var s1 := Emit(s, RequestCancelled(id, "released"));
    if Authorize(s.store, h.blob).Some? {
      KeyIsListed(s.store, h.blob);
      SubmitFrame(s1, h.chan, h.blob, h.message, h.flags, h.peer, h.scope);
      if h.approved.Some? { SubmitApprovedFrame(s1, h, h.approved.value); }
    }
  }

  ghost function IdSet(ids: seq<RequestId>): set<RequestId> {
    set x | x in ids
  }

  lemma {:induction false} ReleaseEachFrame(s: Agent, held: map<RequestId, HeldSign>, ids: seq<RequestId>)
    requires forall id | id in ids :: id in held
    requires ValidStore(s.store) && forall id | id in held :: held[id].peer.uid == s.approvals.uid
    ensures Same(ReleaseEach(s, held, ids), s)
    ensures |ReleaseEach(s, held, ids).approvals.queue| <= |s.approvals.queue| + |ids|
  {
    if ids != [] {
      var front := ids[..|ids| - 1];
      ReleaseEachFrame(s, held, front);
      var id := ids[|ids| - 1];
      ReleaseFrame(ReleaseEach(s, held, front), id, held[id]);
    }
  }

  lemma WithoutLast<T>(m: map<RequestId, T>, ids: seq<RequestId>)
    requires ids != [] && Increasing(ids) && forall id | id in ids :: id in m
    ensures var rest := m - IdSet(ids[..|ids| - 1]);
            var id := ids[|ids| - 1];
            id in rest && rest[id] == m[id] && rest - {id} == m - IdSet(ids)
  {
    var front := ids[..|ids| - 1];
    var id := ids[|ids| - 1];
    assert ids == front + [id];
    assert IdSet(ids) == IdSet(front) + {id};
    assert id !in front;
  }

  lemma {:induction false} ReleaseEachKeeps(s: Agent, held: map<RequestId, HeldSign>, f: set<Chan>, ids: seq<RequestId>)
    requires Core(s, held, f) && Live(s) && Increasing(ids)
    requires forall id | id in ids :: id in held
    ensures Core(ReleaseEach(s, held, ids), held - IdSet(ids), f)
  {
    if ids == [] {
      assert held - IdSet(ids) == held;
    } else {
      var front := ids[..|ids| - 1];
      var id := ids[|ids| - 1];
      ReleaseEachKeeps(s, held, f, front);
      ReleaseEachFrame(s, held, front);
      WithoutLast(held, ids);
      ReleaseOneKeeps(ReleaseEach(s, held, front), held - IdSet(front), f, id);
    }
  }

  lemma AllIds(held: map<RequestId, HeldSign>)
    ensures held - IdSet(Ascending(held.Keys)) == map[] && |Ascending(held.Keys)| == |held|
  {
    var ids := Ascending(held.Keys);
    assert forall id | id in held :: id in ids;
    assert |held.Keys| == |held|;
  }

  lemma HeldUids(s: Agent, h: map<RequestId, HeldSign>, f: set<Chan>)
    requires Core(s, h, f)
    ensures ValidStore(s.store) && forall id | id in h :: h[id].peer.uid == s.approvals.uid
  {
  }

  /** Releasing everything held empties it and keeps the invariant. */
  lemma ReleaseHeldKeeps(s: Agent, f: set<Chan>)
    requires Core(s, s.held, f) && Live(s)
    ensures var s' := ReleaseHeld(s);
            && Core(s', map[], f)
            && Same(s', s.(held := map[]))
            && |s'.approvals.queue| <= |s.approvals.queue| + |s.held|
  {
    HeldUids(s, s.held, f);
    AllIds(s.held);
    hide SettleGranted, ReleaseEach, Core, Ascending, IdSet;
    var ids := Ascending(s.held.Keys);
    var s0 := s.(held := map[]);
    CoreDependsOn(s, s0, s.held, f);
    ReleaseEachKeeps(s0, s.held, f, ids);
    ReleaseEachFrame(s0, s.held, ids);
    SettleGrantedKeeps(ReleaseEach(s0, s.held, ids), map[], f);
  }

  /** Held and queued requests share the queue's four places, so a release never finds
      the queue full: before each request there is room for it. */
  lemma ReleaseNeverFull(s: Agent, f: set<Chan>, k: nat)
    requires Core(s, s.held, f)
    requires s.approvals.queue == [] && |s.held| <= MAX_PENDING && k < |s.held|
    ensures var s' := ReleaseEach(s.(held := map[]), s.held, Ascending(s.held.Keys)[..k]);
            |s'.approvals.queue| < MAX_PENDING
  {
    ReleaseEachFrame(s.(held := map[]), s.held, Ascending(s.held.Keys)[..k]);
  }
}
