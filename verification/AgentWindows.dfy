/** How long a grant answers: from the reading at which it was opened to the end of the window
    the panel gave, unless it is revoked or voided before. */
module AgentWindows {
  import opened Base
  import opened KeyStoreModel
  import opened FifoModel
  import opened ApprovalModel
  import opened ObserverModel
  import opened AgentModel
  import opened AgentSends
  import opened AgentSafety
  import opened AgentTheorems
  import opened AgentAnswers
  import AgentTimely

  ghost function Seen(s: Agent): map<GrantId, Grant> {
    Observe(s.log).grants
  }

  /** Some clock reading so far was past the end of the grant. */
  ghost predicate RanOut(g: Grant, clock: nat -> nat, readings: nat) {
    g.expires.Some? && exists k :: 0 <= k < readings && Min(clock(k), U64_MAX) >= g.expires.value
  }

  /** From `s` to `s'` no grant was lost but by running out, and every new one is held. */
  ghost predicate Keeps(s': Agent, s: Agent) {
    && s'.clock == s.clock && s.readings <= s'.readings
    && (forall g | g in s.approvals.grants :: g in s'.approvals.grants || RanOut(g, s'.clock, s'.readings))
    && (forall id | id in Seen(s') ::
          || (id in Seen(s) && Seen(s)[id] == Seen(s')[id])
          || Seen(s')[id] in s'.approvals.grants || RanOut(Seen(s')[id], s'.clock, s'.readings))
  }

  lemma KeepsOn(a: Agent, b: Agent, c: Agent)
    requires Keeps(a, b) && Keeps(b, c)
    ensures Keeps(a, c)
  {
    hide RanOut;
    forall g ensures RanOut(g, b.clock, b.readings) ==> RanOut(g, a.clock, a.readings) {
      RanOutStays(g, a.clock, b.readings, a.readings);
    }
  }

  lemma RanOutStays(g: Grant, clock: nat -> nat, n: nat, m: nat)
    requires n <= m
    ensures RanOut(g, clock, n) ==> RanOut(g, clock, m)
  {
  }

  /** Neither the grants nor the clock moved, here and in the log. */
  ghost predicate Alike(s': Agent, s: Agent) {
    s'.clock == s.clock && s'.readings == s.readings && s'.approvals.grants == s.approvals.grants && Seen(s') == Seen(s)
  }

  lemma AlikeKeeps(s': Agent, s: Agent)
    requires Alike(s', s)
    ensures Keeps(s', s)
  {
    hide RanOut, Observe;
  }

  predicate Harmless(e: Entry) {
    !e.Told? && !e.Opened?
  }

  lemma NoteAlike(s: Agent, e: Entry)
    requires Harmless(e)
    ensures Alike(Note(s, e), s)
  {
  }

  // ---- the loops over tables ----

  lemma {:induction false} ReplyEachAlike(s: Agent, chans: seq<Chan>, r: Response)
    ensures Alike(ReplyEach(s, chans, r), s)
  {
    hide Observe;
    if chans != [] {
      ReplyEachAlike(s, chans[..|chans| - 1], r);
      NoteAlike(ReplyEach(s, chans[..|chans| - 1], r), Replied(chans[|chans| - 1], r));
    }
  }

  lemma {:induction false} FailEachAlike(s: Agent, pending: map<RequestId, PendingSign>, ids: seq<RequestId>)
    requires forall id | id in ids :: id in pending
    ensures Alike(FailEach(s, pending, ids), s)
  {
    hide Observe;
    if ids != [] {
      FailEachAlike(s, pending, ids[..|ids| - 1]);
      NoteAlike(FailEach(s, pending, ids[..|ids| - 1]), Replied(pending[ids[|ids| - 1]].chan, Failure));
    }
  }

  lemma ReplyAndCancel(s: Agent, chan: Chan, r: Response, id: RequestId, reason: string)
    ensures Alike(Emit(Reply(s, chan, r), RequestCancelled(id, reason)), s)
    ensures Alike(Emit(s, RequestCancelled(id, reason)), s)
  {
    NoteAlike(s, Replied(chan, r));
    NoteAlike(Reply(s, chan, r), Emitted(RequestCancelled(id, reason)));
  }

  lemma {:induction false} CancelEachAlike(s: Agent, held: map<RequestId, HeldSign>, ids: seq<RequestId>,
                                           reason: string)
    requires forall id | id in ids :: id in held
    ensures Alike(CancelEach(s, held, ids, reason), s)
  {
    hide Observe;
    if ids != [] {
      var id := ids[|ids| - 1];
      CancelEachAlike(s, held, ids[..|ids| - 1], reason);
      ReplyAndCancel(CancelEach(s, held, ids[..|ids| - 1], reason), held[id].chan, Failure, id, reason);
    }
  }

  lemma {:induction false} SettleEachAlike(s: Agent, released: seq<Request>)
    ensures Alike(SettleEach(s, released), s)
  {
    hide Observe, AuthorizedSignature;
    if released != [] {
      var s1 := SettleEach(s, released[..|released| - 1]);
      var r := released[|released| - 1];
      SettleEachAlike(s, released[..|released| - 1]);
      if r.id in s1.pending {
        var sign := s1.pending[r.id];
        var a := AuthorizedSignature(s1.store, Authorization(r.epoch, r.blob), sign.message, sign.flags);
        ReplyAndCancel(s1.(pending := s1.pending - {r.id}), sign.chan, a, r.id, "granted");
      } else {
        ReplyAndCancel(s1, 0, Failure, r.id, "granted");
      }
    }
  }

  lemma {:induction false} WithdrawEachAlike(s: Agent, ids: seq<RequestId>)
    ensures Alike(WithdrawEach(s, ids), s)
  {
    hide Observe;
    if ids != [] {
      var id := ids[|ids| - 1];
      var s1 := WithdrawEach(s, ids[..|ids| - 1]);
      WithdrawEachAlike(s, ids[..|ids| - 1]);
      var s2 := s1.(approvals := Disconnect(s1.approvals, id));
      if id in s2.pending {
        ReplyAndCancel(s2.(pending := s2.pending - {id}), s2.pending[id].chan, Failure, id, "withdrawn");
      } else {
        ReplyAndCancel(s2, 0, Failure, id, "withdrawn");
      }
    }
  }

  lemma {:induction false} DropEachAlike(s: Agent, ids: seq<RequestId>)
    ensures Alike(DropEach(s, ids), s)
  {
    hide Observe;
    if ids != [] {
      var id := ids[|ids| - 1];
      var s1 := DropEach(s, ids[..|ids| - 1]);
      DropEachAlike(s, ids[..|ids| - 1]);
      if id in s1.held {
        ReplyAndCancel(s1.(held := s1.held - {id}), s1.held[id].chan, Failure, id, "withdrawn");
      } else {
        ReplyAndCancel(s1, 0, Failure, id, "withdrawn");
      }
    }
  }

  lemma {:induction false} AnnounceAlike(s: Agent, epoch: nat, public: seq<PublicIdentity>)
    ensures Alike(AnnounceEach(s, epoch, public), s)
  {
    hide Observe;
    if public != [] {
      AnnounceAlike(s, epoch, public[..|public| - 1]);
      NoteAlike(AnnounceEach(s, epoch, public[..|public| - 1]), Emitted(PublicKey(epoch, public[|public| - 1])));
    }
  }

  lemma ReleaseListingAlike(s: Agent, reason: string)
    ensures Alike(ReleaseListing(s, reason), s)
  {
    hide Observe;
    if s.listing.Some? {
      var w := s.listing.value;
      var keys := Listing(ListKeys(s.store.public));
      ReplyEachAlike(s.(listing := None), w.waiting, keys);
      NoteAlike(ReplyEach(s.(listing := None), w.waiting, keys), Emitted(RequestCancelled(w.id, reason)));
    }
  }

  lemma CancelAlike(s: Agent, reason: string)
    ensures Alike(ReleaseListing(CancelHeld(s, reason), reason), s)
  {
    hide Observe, ReleaseListing;
    CancelEachAlike(s.(held := map[]), s.held, Ascending(s.held.Keys), reason);
    ReleaseListingAlike(CancelHeld(s, reason), reason);
  }

  lemma FailPendingAlike(s: Agent)
    ensures Alike(FailPending(s), s)
  {
    FailEachAlike(s.(pending := map[]), s.pending, Ascending(s.pending.Keys));
  }

  // ---- where grants come and go ----

  lemma ReadAlike(s: Agent)
    ensures Seen(ReadClock(s)) == Seen(s)
  {
  }

  /** Whatever the manager drops at this reading has run out. */
  lemma ExpireKeeps(s: Agent, m: Manager)
    requires forall g | g in Expire(s.approvals, Now(s)).grants :: g in m.grants
    ensures Keeps(ReadClock(s).(approvals := m), s)
  {
    hide Observe;
    ReadAlike(s);
    var s' := ReadClock(s).(approvals := m);
    forall g | g in s.approvals.grants ensures g in m.grants || RanOut(g, s'.clock, s'.readings) {
      if !Unexpired(g, Now(s)) { assert Min(s.clock(s.readings), U64_MAX) >= g.expires.value; }
    }
  }

  /** Submitting at worst expires. */
  lemma SubmitGrants(m: Manager, epoch: nat, blob: Blob, peer: Peer, scope: SignScope, now: nat)
    ensures forall g | g in Expire(m, now).grants :: g in Submit(m, epoch, blob, peer, scope, now).0.grants
  {
  }

  lemma SubmitKeeps(s: Agent, chan: Chan, blob: Blob, message: seq<byte>, flags: nat, peer: Peer, scope: SignScope)
    ensures Keeps(SubmitSign(s, chan, blob, message, flags, peer, scope), s)
  {
    hide Submit, FindPublic, AuthorizedSignature, Expire, Observe, RanOut;
    var (m, submitted) := Submit(s.approvals, s.store.tracker.epoch, blob, peer, scope, Now(s));
    var s1 := ReadClock(s).(approvals := m);
    SubmitGrants(s.approvals, s.store.tracker.epoch, blob, peer, scope, Now(s));
    ExpireKeeps(s, m);
    var s' := SubmitSign(s, chan, blob, message, flags, peer, scope);
    NoteAlike(s1, Replied(chan, Failure));
    if submitted.Granted? {
      NoteAlike(s1, Replied(chan, AuthorizedSignature(s.store, submitted.authorization, message, flags)));
    }
    if submitted.Queued? {
      var key := FindPublic(s.store.public, blob);
      NoteAlike(s1.(approvals := Disconnect(m, submitted.id)), Replied(chan, Failure));
      if key.Some? {
        NoteAlike(s1, Emitted(ApprovalRequired(submitted.id, chan, key.value, peer, scope, Grantable(scope))));
      }
    }
    assert Alike(s', s1);
    AlikeKeeps(s', s1);
    KeepsOn(s', s1, s);
  }

  /** Approving at worst expires, and opens at most the grant at the end. */
  lemma ApproveGrants(m: Manager, id: RequestId, d: GrantDuration, now: nat)
    ensures forall g | g in Expire(m, now).grants :: g in Approve(m, id, d, now).0.grants
  {
  }

  lemma ApproveQueuedKeeps(s: Agent, id: RequestId, chan: Chan, d: GrantDuration)
    ensures Keeps(ApproveQueued(s, id, chan, d).0, s)
  {
    hide Approve, Expire, RanOut;
    var m := Approve(s.approvals, id, d, Now(s)).0;
    ApproveGrants(s.approvals, id, d, Now(s));
    ExpireKeeps(s, m);
    var s1 := ReadClock(s).(approvals := m);
    var s' := ApproveQueued(s, id, chan, d).0;
    assert Keeps(s', s1);
    KeepsOn(s', s1, s);
  }

  lemma AnswerAlike(s: Agent, chan: Chan, a: Option<Authorization>, message: seq<byte>, flags: nat)
    ensures Alike(Answer(s, chan, a, message, flags), s)
  {
    hide AuthorizedSignature;
  }

  lemma SubmitApprovedKeeps(s: Agent, h: HeldSign, d: GrantDuration)
    ensures Keeps(SubmitApproved(s, h, d), s)
  {
    hide Submit, ApproveQueued, Answer, Expire, Keeps;
    var (m, submitted) := Submit(s.approvals, s.store.tracker.epoch, h.blob, h.peer, h.scope, Now(s));
    var s1 := ReadClock(s).(approvals := m);
    SubmitGrants(s.approvals, s.store.tracker.epoch, h.blob, h.peer, h.scope, Now(s));
    ExpireKeeps(s, m);
    var s' := SubmitApproved(s, h, d);
    match submitted {
      case Granted(a) =>
        AnswerAlike(s1, h.chan, Some(a), h.message, h.flags);
        AlikeKeeps(s', s1);
      case Queued(id) =>
        var (s2, a) := ApproveQueued(s1, id, h.chan, d);
        ApproveQueuedKeeps(s1, id, h.chan, d);
        AnswerAlike(s2, h.chan, a, h.message, h.flags);
        AlikeKeeps(s', s2);
        KeepsOn(s', s2, s1);
      case Rejected =>
        NoteAlike(s1, Replied(h.chan, Failure));
        AlikeKeeps(s', s1);
    }
    KeepsOn(s', s1, s);
  }

  lemma SettleGrantedKeeps(s: Agent)
    ensures Keeps(SettleGranted(s), s)
  {
    hide SettleEach, Expire, Keeps;
    var (m, released) := ReleaseGranted(s.approvals, Now(s));
    var s1 := ReadClock(s).(approvals := m);
    ExpireKeeps(s, m);
    SettleEachAlike(s1, released);
    AlikeKeeps(SettleGranted(s), s1);
    KeepsOn(SettleGranted(s), s1, s);
  }

  lemma ReleaseOneKeeps(s: Agent, id: RequestId, h: HeldSign)
    ensures Keeps(ReleaseOne(s, id, h), s)
  {
    hide Authorize, SubmitSign, SubmitApproved, Keeps;
    var s1 := Emit(s, RequestCancelled(id, "released"));
    NoteAlike(s, Emitted(RequestCancelled(id, "released")));
    AlikeKeeps(s1, s);
    NoteAlike(s1, Replied(h.chan, Failure));
    AlikeKeeps(Reply(s1, h.chan, Failure), s1);
    SubmitKeeps(s1, h.chan, h.blob, h.message, h.flags, h.peer, h.scope);
    if h.approved.Some? { SubmitApprovedKeeps(s1, h, h.approved.value); }
    KeepsOn(ReleaseOne(s, id, h), s1, s);
  }

  lemma {:induction false} ReleaseEachKeeps(s: Agent, held: map<RequestId, HeldSign>, ids: seq<RequestId>)
    requires forall id | id in ids :: id in held
    ensures Keeps(ReleaseEach(s, held, ids), s)
  {
    hide ReleaseOne, Keeps;
    if ids == [] {
      SelfKeeps(s);
    } else {
      var front, id := ids[..|ids| - 1], ids[|ids| - 1];
      ReleaseEachKeeps(s, held, front);
      var s1 := ReleaseEach(s, held, front);
      ReleaseOneKeeps(s1, id, held[id]);
      KeepsOn(ReleaseEach(s, held, ids), s1, s);
    }
  }

  lemma SelfKeeps(s: Agent)
    ensures Keeps(s, s)
  {
    AlikeKeeps(s, s);
  }

  lemma ReleaseHeldKeeps(s: Agent)
    ensures Keeps(ReleaseHeld(s), s)
  {
    hide ReleaseEach, SettleGranted, Keeps;
    var s0 := s.(held := map[]);
    AlikeKeeps(s0, s);
    var s1 := ReleaseEach(s0, s.held, Ascending(s.held.Keys));
    ReleaseEachKeeps(s0, s.held, Ascending(s.held.Keys));
    SettleGrantedKeeps(s1);
    KeepsOn(ReleaseHeld(s), s1, s0);
    KeepsOn(ReleaseHeld(s), s0, s);
  }

  lemma FinishLoadAlike(s: Agent)
    ensures Alike(FinishLoad(s).0, s)
  {
    hide LoadInto, AnnounceEach;
    if s.load.Some? && s.load.value.payload.Some? {
      var (store, ok) := LoadInto(s.store, s.load.value);
      AnnounceAlike(s.(load := None, store := store, gateOpen := true), s.load.value.epoch, store.public);
    }
  }

  lemma SettleLoadKeeps(s: Agent)
    ensures Keeps(SettleLoad(s), s)
  {
    hide FinishLoad, ReleaseHeld, CancelHeld, ReleaseListing, Keeps, Alike;
    FinishLoadAlike(s);
    var (s1, outcome) := FinishLoad(s);
    AlikeKeeps(s1, s);
    var s' := SettleLoad(s);
    if outcome.Published? {
      ReleaseHeldKeeps(s1);
      ReleaseListingAlike(ReleaseHeld(s1), "released");
      AlikeKeeps(s', ReleaseHeld(s1));
      KeepsOn(s', ReleaseHeld(s1), s1);
      KeepsOn(s', s1, s);
    } else if outcome.LoadRefused? {
      CancelAlike(s1, "load-failed");
      AlikeKeeps(s', s1);
      KeepsOn(s', s1, s);
    }
  }

  // ---- one event ----

  lemma ClientKeepsGrants(s: Agent, c: Client)
    ensures Keeps(HandleClient(s, c), s)
  {
    hide SubmitSign, Authorize, HandleListing, HoldSign, Keeps;
    var s1 := Note(s.(nextChan := s.nextChan + 1), Delivered(s.nextChan, c));
    NoteAlike(s.(nextChan := s.nextChan + 1), Delivered(s.nextChan, c));
    AlikeKeeps(s1, s);
    NoteAlike(s1, Replied(s.nextChan, Failure));
    AlikeKeeps(Reply(s1, s.nextChan, Failure), s1);
    ListingKeepsGrants(s1, s.nextChan, c);
    if c.request.SignData? {
      HoldKeepsGrants(s1, s.nextChan, c);
      SubmitKeeps(s1, s.nextChan, c.request.blob, c.request.message, c.request.flags, c.peer, Scope(c));
    }
    KeepsOn(HandleClient(s, c), s1, s);
  }

  /** A reading that only sets a deadline. */
  lemma ReadKeeps(s: Agent)
    ensures Keeps(ReadClock(s), s)
  {
    ExpireKeeps(s, s.approvals);
  }

  lemma ListingKeepsGrants(s: Agent, chan: Chan, c: Client)
    ensures Keeps(HandleListing(s, chan, c), s)
  {
    hide ListKeys, RanOut;
    SelfKeeps(s);
    var keys := ListKeys(s.store.public);
    NoteAlike(s, Replied(chan, Listing(keys)));
    AlikeKeeps(Reply(s, chan, Listing(keys)), s);
    var (approvals, id) := Reserve(s.approvals);
    if id.Some? {
      var s1 := Emit(s.(approvals := approvals), UnlockRequired(id.value, chan, None, c.peer, Scope(c), false));
      assert Alike(s1, s);
      AlikeKeeps(s1, s);
      ReadKeeps(s1);
      KeepsOn(ReadClock(s1), s1, s);
    }
  }

  lemma HoldKeepsGrants(s: Agent, chan: Chan, c: Client)
    requires c.request.SignData?
    ensures Keeps(HoldSign(s, chan, c), s)
  {
    hide FindPublic, RanOut;
    NoteAlike(s, Replied(chan, Failure));
    AlikeKeeps(Reply(s, chan, Failure), s);
    var key := FindPublic(s.store.public, c.request.blob);
    var (approvals, id) := Reserve(s.approvals);
    if id.Some? {
      var s1 := Emit(s.(approvals := approvals),
                     UnlockRequired(id.value, chan, key, c.peer, Scope(c), Grantable(Scope(c))));
      assert Alike(s1, s);
      AlikeKeeps(s1, s);
      ReadKeeps(s1);
      KeepsOn(ReadClock(s1), s1, s);
    }
  }

  lemma ApproveKeepsGrants(s: Agent, id: RequestId, d: GrantDuration)
    ensures Keeps(OnApprove(s, id, d), s)
  {
    hide Answer, SettleGranted, ApproveQueued, Keeps, Alike;
    SelfAlike(s);
    if id in s.held {
      AlikeHeld(s, s.held[id := s.held[id].(approved := Some(d))]);
      AlikeKeeps(OnApprove(s, id, d), s);
    } else if id in s.pending {
      var sign := s.pending[id];
      var s0 := s.(pending := s.pending - {id});
      AlikePending(s, id);
      AlikeKeeps(s0, s);
      var (s1, a) := ApproveQueued(s0, id, sign.chan, d);
      ApproveQueuedKeeps(s0, id, sign.chan, d);
      KeepsOn(s1, s0, s);
      var s2 := Answer(s1, sign.chan, a, sign.message, sign.flags);
      AnswerAlike(s1, sign.chan, a, sign.message, sign.flags);
      AlikeKeeps(s2, s1);
      KeepsOn(s2, s1, s);
      SettleGrantedKeeps(s2);
      KeepsOn(SettleGranted(s2), s2, s);
    } else {
      AlikeKeeps(s, s);
    }
  }

  lemma SelfAlike(s: Agent)
    ensures Alike(s, s)
  {
  }

  lemma AlikeHeld(s: Agent, held: map<RequestId, HeldSign>)
    ensures Alike(s.(held := held), s)
  {
  }

  lemma AlikePending(s: Agent, id: RequestId)
    ensures Alike(s.(pending := s.pending - {id}), s)
  {
  }

  lemma DenyAlike(s: Agent, id: RequestId)
    ensures Alike(OnDeny(s, id), s)
  {
    hide ReleaseListing;
    var s1 := s.(approvals := Disconnect(s.approvals, id));
    var s2 := if id in s.pending then Reply(s1.(pending := s.pending - {id}), s.pending[id].chan, Failure) else s1;
    assert Alike(s2, s);
    var s3 := if id in s.held then Reply(s2.(held := s.held - {id}), s.held[id].chan, Failure) else s2;
    assert Alike(s3, s2);
    ReleaseListingAlike(s3, "cancelled");
  }

  lemma TickKeepsGrants(s: Agent, closed: set<Chan>)
    ensures Keeps(OnTick(s, closed), s)
  {
    hide Keeps, Alike, SettleLoad, Withdrawn, Dropped, Relisted, EmitGrants, Expire, OnTick;
    var now := Now(s);
    var s1 := ReadClock(s).(approvals := Expire(s.approvals, now));
    ExpireKeeps(s, Expire(s.approvals, now));
    var s2 := ExpireLoad(s1, now);
    ExpireLoadKeepsGrants(s1, now);
    KeepsOn(s2, s1, s);
    TickEndAlike(s2, closed, now);
    TickStages(s, closed);
    AlikeKeeps(OnTick(s, closed), s2);
    KeepsOn(OnTick(s, closed), s2, s);
  }

  lemma ExpireLoadKeepsGrants(s: Agent, now: nat)
    ensures Keeps(ExpireLoad(s, now), s)
  {
    hide SettleLoad, RanOut;
    SelfKeeps(s);
    if s.load.Some? {
      var s1 := s.(load := Some(s.load.value.(payload := Some(ReadFailed))));
      AlikeKeeps(s1, s);
      SettleLoadKeeps(s1);
      KeepsOn(SettleLoad(s1), s1, s);
    }
  }

  lemma TickEndAlike(s: Agent, closed: set<Chan>, now: nat)
    ensures Alike(EmitGrants(Relisted(Dropped(Withdrawn(s, closed), closed, now), closed, now)), s)
  {
    hide WithdrawEach, DropEach, ReleaseListing, ListingDone, ExpiredIds, StaleIds, EmitGrants, Observe;
    WithdrawEachAlike(s, Ascending(ExpiredIds(s, closed)));
    var s1 := Withdrawn(s, closed);
    DropEachAlike(s1, Ascending(StaleIds(s1, closed, now)));
    var s2 := Dropped(s1, closed, now);
    ReleaseListingAlike(s2, "withdrawn");
    EmitGrantsAlike(Relisted(s2, closed, now));
  }

  lemma EmitGrantsAlike(s: Agent)
    ensures Alike(EmitGrants(s), s)
  {
    hide GrantIds;
    NoteAlike(s.(snapshot := GrantIds(s.approvals.grants)), Emitted(GrantsChanged(s.approvals.grants)));
  }

  /** Every grant opened and not revoked or voided since is held, unless it has run out. */
  ghost predicate AllHeld(s: Agent) {
    forall id | id in Seen(s) :: Seen(s)[id] in s.approvals.grants || RanOut(Seen(s)[id], s.clock, s.readings)
  }

  lemma KeepsAllHeld(s': Agent, s: Agent)
    requires Keeps(s', s) && AllHeld(s)
    ensures AllHeld(s')
  {
    hide RanOut, Observe;
    forall id | id in Seen(s) ensures
      RanOut(Seen(s)[id], s.clock, s.readings) ==> RanOut(Seen(s)[id], s'.clock, s'.readings)
    {
      RanOutStays(Seen(s)[id], s.clock, s.readings, s'.readings);
    }
  }

  /** The message that voids every grant, in the log and in the manager. */
  lemma VoidedAllHeld(s: Agent)
    requires Seen(s) == map[]
    ensures AllHeld(s)
  {
  }

  lemma AlikeVoid(s': Agent, s: Agent)
    requires Alike(s', s) && Seen(s) == map[]
    ensures AllHeld(s')
  {
  }

  lemma DeactivateVoids(s: Agent, store: Store, reason: string)
    requires Seen(s) == map[]
    ensures Seen(Deactivate(s, store, reason)) == map[]
  {
    hide Observe, FailPending, CancelHeld, ReleaseListing;
    var s1 := s.(gateOpen := false, load := None, store := store, approvals := InvalidateAll(s.approvals));
    FailPendingAlike(s1);
    CancelAlike(FailPending(s1), reason);
  }

  lemma HeardVoids(s: Agent, c: Control)
    requires c.VaultLocked? || c.VaultLoggedOut? || c.KeyLoadBegin? || c.RevokeGrants?
    ensures Seen(Note(s, Told(c))) == map[]
  {
  }

  lemma LoadBeginVoids(s: Agent, epoch: nat, loadId: seq<byte>)
    requires Seen(s) == map[]
    ensures Seen(OnLoadBegin(s, epoch, loadId)) == map[]
  {
    hide Observe, FailPending, ValidNonce;
    FailPendingAlike(s.(gateOpen := false, approvals := InvalidateAll(s.approvals)));
  }

  lemma HeardAlike(s: Agent, c: Control)
    requires c.Hello? || c.Options? || c.ApproveRequest? || c.Deny? || c.UnlockCancelled? || c.KeyLoadEnd?
    ensures Alike(Note(s, Told(c)), s)
  {
  }

  lemma RevokeOneAllHeld(s: Agent, g: GrantId)
    requires AllHeld(s)
    ensures AllHeld(OnControl(s, RevokeOne(g)))
  {
    hide RanOut;
    var s' := OnControl(s, RevokeOne(g));
    assert Seen(s') == Seen(s) - {g};
    forall id | id in Seen(s')
      ensures Seen(s')[id] in s'.approvals.grants || RanOut(Seen(s')[id], s.clock, s.readings)
    {
      assert id in Seen(s);
      KnownById(s, id);
    }
  }

  /** Grants are known by their own id. */
  lemma KnownById(s: Agent, id: GrantId)
    requires id in Seen(s)
    ensures Seen(s)[id].id == id
  {
    SeenById(s.log, id);
  }

  lemma {:induction false} SeenById(log: Log, id: GrantId)
    requires id in Observe(log).grants
    ensures Observe(log).grants[id].id == id
  {
    if log.Then? && id in Observe(log.past).grants { SeenById(log.past, id); }
  }

  lemma LoadEndKeepsGrants(s: Agent, epoch: nat, ok: bool)
    ensures Keeps(OnLoadEnd(s, epoch, ok), s)
  {
    hide SettleLoad, CancelHeld, ReleaseListing, RanOut, Observe;
    SelfKeeps(s);
    if s.load.Some? && s.load.value.epoch == epoch {
      if ok {
        ReadKeeps(s);
        AlikeKeeps(Ended(s), ReadClock(s));
        KeepsOn(Ended(s), ReadClock(s), s);
        SettleLoadKeeps(Ended(s));
        KeepsOn(SettleLoad(Ended(s)), Ended(s), s);
      } else {
        var s1 := s.(load := None, store := Lock(s.store, epoch), gateOpen := false);
        CancelAlike(s1, "load-failed");
        AlikeKeeps(OnLoadEnd(s, epoch, ok), s);
      }
    } else {
      AlikeKeeps(OnLoadEnd(s, epoch, ok), s);
    }
  }

  lemma ControlAllHeld(s: Agent, c: Control)
    requires AllHeld(s) && !c.Shutdown?
    ensures AllHeld(OnControl(s, c))
  {
    hide AllHeld, Keeps, Alike, Seen, Deactivate, OnApprove, OnDeny, OnLoadBegin, OnLoadEnd, OnHello;
    var s1 := Note(s, Told(c));
    var s' := OnControl(s, c);
    if c.VaultLocked? {
      HeardVoids(s, c);
      DeactivateVoids(s1, Lock(s.store, c.epoch), "locked");
      var s2 := Deactivate(s1, Lock(s.store, c.epoch), "locked");
      NoteAlike(s2, Emitted(LockedAck(c.epoch)));
      AlikeVoid(s', s2);
    } else if c.VaultLoggedOut? {
      HeardVoids(s, c);
      DeactivateVoids(s1, Logout(s.store, SatAdd(s.store.tracker.epoch, 1)), "logged-out");
      VoidedAllHeld(s');
    } else if c.KeyLoadBegin? {
      HeardVoids(s, c);
      LoadBeginVoids(s1, c.epoch, c.loadId);
      VoidedAllHeld(s');
    } else if c.RevokeGrants? {
      HeardVoids(s, c);
      SeenAlike(s', s1);
      VoidedAllHeld(s');
    } else if c.RevokeOne? {
      RevokeOneAllHeld(s, c.grantId);
    } else {
      HeardAlike(s, c);
      AlikeKeeps(s1, s);
      match c {
        case ApproveRequest(id, d) => ApproveKeepsGrants(s1, id, d);
        case Deny(id) => DenyAlike(s1, id); AlikeKeeps(s', s1);
        case UnlockCancelled(id) => DenyAlike(s1, id); AlikeKeeps(s', s1);
        case KeyLoadEnd(epoch, ok) => LoadEndKeepsGrants(s1, epoch, ok);
        case Hello => HelloAlike(s1); AlikeKeeps(s', s1);
        case Options(on) => OptionsAlike(s1, on); AlikeKeeps(s', s1);
      }
      KeepsOn(s', s1, s);
      KeepsAllHeld(s', s);
    }
  }

  lemma HelloAlike(s: Agent)
    ensures Alike(OnHello(s), s)
  {
  }

  lemma OptionsAlike(s: Agent, on: bool)
    ensures Alike(s.(unlockOnDemand := on), s)
  {
  }

  lemma SeenAlike(s': Agent, s: Agent)
    requires s'.log == s.log
    ensures Seen(s') == Seen(s)
  {
  }

  lemma StepAllHeld(s: Agent, e: Event)
    requires AllHeld(s) && s.phase.Running?
    ensures Step(s, e).phase.Running? ==> AllHeld(Step(s, e))
  {
    hide AllHeld, Keeps, OnControl, Finish, HandleClient, SettleLoad, OnTick;
    match e
    case FromPanel(c) => if c.Shutdown? { ShutdownEnds(s); } else { ControlAllHeld(s, c); }
    case PanelClosed => FinishEnds(Note(s, Told(Shutdown)));
    case PanelGarbled =>
    case FromClient(c) =>
      ClientKeepsGrants(s, c);
      KeepsAllHeld(HandleClient(s, c), s);
    case FromFifo(epoch, payload) =>
      if s.load.Some? && s.load.value.epoch == epoch {
        var s1 := s.(load := Some(s.load.value.(payload := Some(payload))));
        AlikeKeeps(s1, s);
        SettleLoadKeeps(s1);
        KeepsOn(SettleLoad(s1), s1, s);
        KeepsAllHeld(SettleLoad(s1), s);
      }
    case Tick(closed) =>
      TickKeepsGrants(s, closed);
      KeepsAllHeld(OnTick(s, closed), s);
  }

  lemma ShutdownEnds(s: Agent)
    ensures !OnControl(s, Shutdown).phase.Running?
  {
    hide FailPending, CancelHeld, ReleaseListing;
  }

  lemma FinishEnds(s: Agent)
    ensures !Finish(s).phase.Running?
  {
    hide FailPending, CancelHeld, ReleaseListing;
  }

  /** At every point of every run, whatever the clock does: a grant that was opened and not
      revoked or voided since is held by the manager, unless some reading was past its end. */
  lemma {:induction false} GrantsAreHeld(uid: nat, clock: nat -> nat, events: seq<Event>)
    requires Run(Init(uid, clock), events).phase.Running?
    ensures AllHeld(Run(Init(uid, clock), events)) && Run(Init(uid, clock), events).clock == clock
    decreases |events|
  {
    hide Step, AllHeld;
    if events == [] {
      VoidedAllHeld(Init(uid, clock));
    } else {
      var front, e := events[..|events| - 1], events[|events| - 1];
      var s := Run(Init(uid, clock), front);
      if s.phase.Running? {
        GrantsAreHeld(uid, clock, front);
        StepAllHeld(s, e);
        StepClock(s, e);
      } else {
        StoppedStays(s, e);
      }
    }
  }

  lemma StepClock(s: Agent, e: Event)
    ensures Step(s, e).clock == s.clock && s.readings <= Step(s, e).readings
  {
    hide Step, AgentTimely.TrackedIn, AgentTimely.InTime, Keeps;
    if e.Tick? {
      TickClock(s, e.closed);
    } else {
      AgentTimely.StepTimed(s, e, {}, 0);
    }
  }

  lemma TickClock(s: Agent, closed: set<Chan>)
    ensures Step(s, Tick(closed)).clock == s.clock && s.readings <= Step(s, Tick(closed)).readings
  {
    hide OnTick, RanOut, Observe;
    TickKeepsGrants(s, closed);
  }

  // ---- exactly how long ----

  /** `now` lies within a window of this length opened at `t`: so many seconds, fifteen
      minutes at most, on a 64-bit millisecond clock; any time if it has no length. */
  predicate InWindow(d: GrantDuration, t: nat, now: nat) {
    match d
    case Once => false
    case Seconds(n) => now < t + 1000 * (if n < 900 then n else 900) && now < 0xFFFF_FFFF_FFFF_FFFF
    case UntilScreenLock => true
  }

  /** The grant is for this request's key, kind of signature, user and program. */
  predicate For(g: Grant, c: Client)
    requires c.request.SignData?
  {
    && !c.forwarded && c.kind != SignKind.Other
    && g.blob == c.request.blob && g.kind == c.kind
    && g.peer.uid == c.peer.uid && g.peer.executable == c.peer.executable
  }

  /** `g` was opened by approving the request `chan` when the log was `past`, and neither
      revoked nor voided since. */
  ghost predicate Standing(s: Agent, past: Log, g: Grant, chan: Chan) {
    Extends(s.log, Then(past, Opened(g, chan))) && g.id in Seen(s) && Seen(s)[g.id] == g
  }

  lemma WindowIs(s: Agent, uid: nat, past: Log, g: Grant, chan: Chan, now: nat)
    requires Accepted(s.log, uid) && Standing(s, past, g, chan)
    ensures chan in Observe(past).approved
    ensures now <= U64_MAX ==>
              (Unexpired(g, now) <==> InWindow(Observe(past).approved[chan], Observe(past).now, now))
  {
    AcceptedAt(s.log, uid, past, Opened(g, chan));
  }

  /** A matching request when the grant is, or is not, among the live ones. */
  lemma GrantAnswers(s: Agent, g: Grant, c: Client)
    requires Inv(s) && s.phase.Running? && s.gateOpen && c.request.SignData? && For(g, c)
    requires c.peer.uid == s.approvals.uid && g in s.approvals.grants
    ensures var s' := Step(s, FromClient(c));
            var answer := KeyAnswer(s.store, c.request.blob, c.request.message, c.request.flags);
            Unexpired(g, Now(s)) ==> AnsweredWith(s', s.nextChan, answer)
  {
    hide Step, AnsweredWith, KeyAnswer, Inv, Observe, Expire, Covered;
    SignOutcome(s, c);
    GrantIsLive(s, g);
    if Unexpired(g, Now(s)) {
      CoveredByIt(s, g, c);
      NoKeyNoAnswer(s.store, c.request.blob, c.request.message, c.request.flags);
    }
  }

  lemma GrantIsLive(s: Agent, g: Grant)
    requires Inv(s) && g in s.approvals.grants
    ensures Allows(s.store.tracker, s.store.tracker.epoch) && g.epoch == s.store.tracker.epoch
  {
  }

  lemma CoveredByIt(s: Agent, g: Grant, c: Client)
    requires c.request.SignData? && For(g, c) && g in s.approvals.grants && Unexpired(g, Now(s))
    requires g.epoch == s.store.tracker.epoch
    ensures Covered(Expire(s.approvals, Now(s)).grants, s.store.tracker.epoch, c.request.blob, c.peer, Scope(c))
  {
    var live := Expire(s.approvals, Now(s)).grants;
    assert g in live;
    var i :| 0 <= i < |live| && live[i] == g;
  }

  lemma NoKeyNoAnswer(store: Store, blob: Blob, message: seq<byte>, flags: nat)
    requires Allows(store.tracker, store.tracker.epoch)
    ensures Authorize(store, blob).None? ==> KeyAnswer(store, blob, message, flags) == Failure
  {
  }

  /** No grant but `g` is for this request. */
  predicate OnlyFor(s: Agent, g: Grant, c: Client)
    requires c.request.SignData?
  {
    forall x | x in s.approvals.grants && For(x, c) :: x == g
  }

  lemma NoGrantNoAnswer(s: Agent, g: Grant, c: Client)
    requires Inv(s) && s.phase.Running? && s.gateOpen && c.request.SignData? && OnlyFor(s, g, c)
    requires !(g in s.approvals.grants && Unexpired(g, Now(s)))
    ensures var s' := Step(s, FromClient(c));
            s.nextChan in Observe(s'.log).book.answered ==> AnsweredWith(s', s.nextChan, Failure)
  {
    hide Step, KeyAnswer, Inv, Observe, Expire, Covered;
    SignOutcome(s, c);
    NotCovered(s, g, c);
  }

  lemma NotCovered(s: Agent, g: Grant, c: Client)
    requires c.request.SignData? && OnlyFor(s, g, c) && !(g in s.approvals.grants && Unexpired(g, Now(s)))
    ensures !Covered(Expire(s.approvals, Now(s)).grants, s.store.tracker.epoch, c.request.blob, c.peer, Scope(c))
  {
    var live := Expire(s.approvals, Now(s)).grants;
    forall i | 0 <= i < |live|
      ensures !GrantCovers(live[i], s.store.tracker.epoch, c.request.blob, c.peer, Scope(c))
    {
      assert live[i] in live;
    }
  }

  /** None of the readings up to the `n`th is past the window. */
  ghost predicate AllWithin(clock: nat -> nat, n: nat, d: GrantDuration, t: nat) {
    forall k | 0 <= k <= n :: InWindow(d, t, Min(clock(k), U64_MAX))
  }

  /** Whatever the clock does: while no reading so far nor this one is past the window the
      panel gave, a standing grant answers a request it is for at once, with the store's own
      answer. */
  lemma WindowAnswers(uid: nat, clock: nat -> nat, events: seq<Event>, past: Log, g: Grant, chan: Chan, c: Client)
    requires HelloFirst(events) && c.request.SignData? && For(g, c) && c.peer.uid == uid
    requires var s := Run(Init(uid, clock), events);
             s.phase.Running? && s.gateOpen && Standing(s, past, g, chan)
    requires chan in Observe(past).approved
             && AllWithin(clock, Run(Init(uid, clock), events).readings, Observe(past).approved[chan],
                          Observe(past).now)
    ensures var s := Run(Init(uid, clock), events);
            AnsweredWith(Step(s, FromClient(c)), s.nextChan,
                         KeyAnswer(s.store, c.request.blob, c.request.message, c.request.flags))
  {
    hide Run, Step, AnsweredWith, KeyAnswer, Observe, InWindow, Standing, Extends, Inv, Accepted, AllWithin;
    var s := Run(Init(uid, clock), events);
    RunKeeps(uid, clock, events);
    GrantsAreHeld(uid, clock, events);
    InvAccepted(s);
    StillHeld(s, uid, past, g, chan);
    GrantAnswers(s, g, c);
  }

  lemma StillHeld(s: Agent, uid: nat, past: Log, g: Grant, chan: Chan)
    requires AllHeld(s) && Accepted(s.log, uid) && Standing(s, past, g, chan)
    requires chan in Observe(past).approved
             && AllWithin(s.clock, s.readings, Observe(past).approved[chan], Observe(past).now)
    ensures g in s.approvals.grants && Unexpired(g, Now(s))
  {
    hide InWindow, Accepted, Extends, Observe;
    WindowIs(s, uid, past, g, chan, Now(s));
    forall k | 0 <= k < s.readings ensures Unexpired(g, Min(s.clock(k), U64_MAX)) {
      WindowIs(s, uid, past, g, chan, Min(s.clock(k), U64_MAX));
      assert InWindow(Observe(past).approved[chan], Observe(past).now, Min(s.clock(k), U64_MAX));
    }
  }

  ghost predicate Steady(clock: nat -> nat) {
    forall j, k | j <= k :: clock(j) <= clock(k)
  }

  /** On a clock that never goes back: a standing grant, the only one there is for a request,
      has it signed at once if and only if this reading is within the window the panel gave. */
  lemma WindowExact(uid: nat, clock: nat -> nat, events: seq<Event>, past: Log, g: Grant, chan: Chan, c: Client)
    requires HelloFirst(events) && c.request.SignData? && For(g, c) && c.peer.uid == uid && Steady(clock)
    requires var s := Run(Init(uid, clock), events);
             && s.phase.Running? && s.gateOpen && Standing(s, past, g, chan) && OnlyFor(s, g, c)
             && KeyAnswer(s.store, c.request.blob, c.request.message, c.request.flags).Signed?
    ensures chan in Observe(past).approved
    ensures var s := Run(Init(uid, clock), events);
            AnsweredWith(Step(s, FromClient(c)), s.nextChan,
                         KeyAnswer(s.store, c.request.blob, c.request.message, c.request.flags))
            <==> InWindow(Observe(past).approved[chan], Observe(past).now, Now(s))
  {
    hide Run, Step, KeyAnswer, Observe, InWindow, Standing, Extends, Inv, Accepted;
    var s := Run(Init(uid, clock), events);
    RunKeeps(uid, clock, events);
    GrantsAreHeld(uid, clock, events);
    InvAccepted(s);
    WindowIs(s, uid, past, g, chan, Now(s));
    SteadyHeld(s, past, g, chan);
    if g in s.approvals.grants && Unexpired(g, Now(s)) {
      GrantAnswers(s, g, c);
    } else {
      NoGrantNoAnswer(s, g, c);
    }
  }

  lemma InvAccepted(s: Agent)
    requires Inv(s)
    ensures Accepted(s.log, s.approvals.uid)
  {
  }

  lemma SteadyHeld(s: Agent, past: Log, g: Grant, chan: Chan)
    requires AllHeld(s) && Standing(s, past, g, chan) && Steady(s.clock)
    ensures Unexpired(g, Now(s)) ==> g in s.approvals.grants
  {
    hide Extends, Observe;
    if RanOut(g, s.clock, s.readings) {
      var k :| 0 <= k < s.readings && Min(s.clock(k), U64_MAX) >= g.expires.value;
      assert s.clock(k) <= s.clock(s.readings);
    }
  }
}
