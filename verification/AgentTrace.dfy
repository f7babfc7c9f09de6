/** What an event adds to the log, and which keys it leaves in the store: between publishing
    a load and the next lock, logout or load nothing about the keys changes, and every
    listing given out is the list of the public identities at that moment. */
module AgentTrace {
  import opened Base
  import opened KeyStoreModel
  import opened ApprovalModel
  import opened ObserverModel
  import opened AgentModel
  import opened AgentSends

  /** The blob and the name of each public identity, in order. */
  function Names(public: seq<PublicIdentity>): (keys: seq<(Blob, seq<byte>)>)
    ensures |keys| == |public|
    ensures forall i | 0 <= i < |keys| :: keys[i].0 == public[i].blob && keys[i].1 == public[i].name
  {
    seq(|public|, i requires 0 <= i < |public| => (public[i].blob, public[i].name))
  }

  lemma {:induction false} ListKeysIs(public: seq<PublicIdentity>)
    ensures ListKeys(public) == Names(public)
  {
    if public != [] {
      ListKeysIs(public[1..]);
      assert Names(public) == [(public[0].blob, public[0].name)] + Names(public[1..]);
    }
  }

  /** An entry that hears nothing from the panel, announces no key, and lists these. */
  predicate Plain(e: Entry, keys: seq<(Blob, seq<byte>)>) {
    match e
    case Told(_) => false
    case Emitted(o) => !o.PublicKey? && !o.KeysLoaded?
    case Replied(_, r) => r.Listing? ==> r.keys == keys
    case _ => true
  }

  predicate Adds(log': Log, log: Log, keys: seq<(Blob, seq<byte>)>) {
    log' == log || (log'.Then? && Plain(log'.last, keys) && Adds(log'.past, log, keys))
  }

  lemma {:induction false} AddsOn(a: Log, b: Log, c: Log, keys: seq<(Blob, seq<byte>)>)
    requires Adds(a, b, keys) && Adds(b, c, keys)
    ensures Adds(a, c, keys)
  {
    if a != b { AddsOn(a.past, b, c, keys); }
  }

  /** From `s` to `s'` the keys stayed, and the log grew by such entries only. */
  ghost predicate Quiet(s': Agent, s: Agent) {
    s'.store == s.store && Adds(s'.log, s.log, Names(s.store.public))
  }

  lemma QuietOn(a: Agent, b: Agent, c: Agent)
    requires Quiet(a, b) && Quiet(b, c)
    ensures Quiet(a, c)
  {
    AddsOn(a.log, b.log, c.log, Names(c.store.public));
  }

  lemma NoteQuiet(s: Agent, e: Entry)
    requires Plain(e, Names(s.store.public))
    ensures Quiet(Note(s, e), s)
  {
  }

  // ---- the loops over tables ----

  lemma {:induction false} ReplyEachQuiet(s: Agent, chans: seq<Chan>, r: Response)
    requires r.Listing? ==> r.keys == Names(s.store.public)
    ensures Quiet(ReplyEach(s, chans, r), s)
  {
    if chans != [] {
      var s1 := ReplyEach(s, chans[..|chans| - 1], r);
      ReplyEachQuiet(s, chans[..|chans| - 1], r);
      NoteQuiet(s1, Replied(chans[|chans| - 1], r));
      QuietOn(ReplyEach(s, chans, r), s1, s);
    }
  }

  lemma {:induction false} FailEachQuiet(s: Agent, pending: map<RequestId, PendingSign>, ids: seq<RequestId>)
    requires forall id | id in ids :: id in pending
    ensures Quiet(FailEach(s, pending, ids), s)
  {
    if ids != [] {
      var s1 := FailEach(s, pending, ids[..|ids| - 1]);
      FailEachQuiet(s, pending, ids[..|ids| - 1]);
      NoteQuiet(s1, Replied(pending[ids[|ids| - 1]].chan, Failure));
      QuietOn(FailEach(s, pending, ids), s1, s);
    }
  }

  /** Two entries more. */
  lemma NotesQuiet(s: Agent, d: Entry, e: Entry)
    requires Plain(d, Names(s.store.public)) && Plain(e, Names(s.store.public))
    ensures Quiet(Note(Note(s, d), e), s)
  {
    NoteQuiet(s, d);
    NoteQuiet(Note(s, d), e);
    QuietOn(Note(Note(s, d), e), Note(s, d), s);
  }

  lemma {:induction false} CancelEachQuiet(s: Agent, held: map<RequestId, HeldSign>, ids: seq<RequestId>,
                                           reason: string)
    requires forall id | id in ids :: id in held
    ensures Quiet(CancelEach(s, held, ids, reason), s)
  {
    if ids != [] {
      var id := ids[|ids| - 1];
      var s1 := CancelEach(s, held, ids[..|ids| - 1], reason);
      CancelEachQuiet(s, held, ids[..|ids| - 1], reason);
      NotesQuiet(s1, Replied(held[id].chan, Failure), Emitted(RequestCancelled(id, reason)));
      QuietOn(CancelEach(s, held, ids, reason), s1, s);
    }
  }

  lemma NoListing(store: Store, a: Authorization, message: seq<byte>, flags: nat)
    ensures !AuthorizedSignature(store, a, message, flags).Listing?
  {
  }

  lemma SettleOneQuiet(s: Agent, r: Request)
    ensures Quiet(SettleOne(s, r), s)
  {
    hide AuthorizedSignature, Adds;
    var cancelled := Emitted(RequestCancelled(r.id, "granted"));
    if r.id in s.pending {
      var sign := s.pending[r.id];
      NoListing(s.store, Authorization(r.epoch, r.blob), sign.message, sign.flags);
      var a := AuthorizedSignature(s.store, Authorization(r.epoch, r.blob), sign.message, sign.flags);
      NotesQuiet(s.(pending := s.pending - {r.id}), Replied(sign.chan, a), cancelled);
    } else {
      NoteQuiet(s, cancelled);
    }
  }

  lemma {:induction false} SettleEachQuiet(s: Agent, released: seq<Request>)
    ensures Quiet(SettleEach(s, released), s)
  {
    hide SettleOne;
    if released != [] {
      var s1 := SettleEach(s, released[..|released| - 1]);
      SettleEachQuiet(s, released[..|released| - 1]);
      SettleOneQuiet(s1, released[|released| - 1]);
      QuietOn(SettleEach(s, released), s1, s);
    }
  }

  lemma {:induction false} WithdrawEachQuiet(s: Agent, ids: seq<RequestId>)
    ensures Quiet(WithdrawEach(s, ids), s)
  {
    if ids != [] {
      var id := ids[|ids| - 1];
      var s1 := WithdrawEach(s, ids[..|ids| - 1]);
      WithdrawEachQuiet(s, ids[..|ids| - 1]);
      FailAndCancel(s1.(approvals := Disconnect(s1.approvals, id)), id);
      QuietOn(WithdrawEach(s, ids), s1, s);
    }
  }

  lemma FailAndCancel(s: Agent, id: RequestId)
    ensures var cancelled := Emitted(RequestCancelled(id, "withdrawn"));
            && Quiet(Note(s, cancelled), s)
            && forall chan :: Quiet(Note(Reply(s, chan, Failure), cancelled), s)
  {
    hide Adds;
    var cancelled := Emitted(RequestCancelled(id, "withdrawn"));
    NoteQuiet(s, cancelled);
    forall chan ensures Quiet(Note(Reply(s, chan, Failure), cancelled), s) {
      NotesQuiet(s, Replied(chan, Failure), cancelled);
    }
  }

  lemma {:induction false} DropEachQuiet(s: Agent, ids: seq<RequestId>)
    ensures Quiet(DropEach(s, ids), s)
  {
    if ids != [] {
      var id := ids[|ids| - 1];
      var s1 := DropEach(s, ids[..|ids| - 1]);
      DropEachQuiet(s, ids[..|ids| - 1]);
      FailAndCancel(s1, id);
      QuietOn(DropEach(s, ids), s1, s);
    }
  }

  lemma ReleaseListingQuiet(s: Agent, reason: string)
    ensures Quiet(ReleaseListing(s, reason), s)
  {
    hide Adds;
    if s.listing.Some? {
      var w := s.listing.value;
      ListKeysIs(s.store.public);
      var s1 := ReplyEach(s.(listing := None), w.waiting, Listing(ListKeys(s.store.public)));
      ReplyEachQuiet(s.(listing := None), w.waiting, Listing(ListKeys(s.store.public)));
      NoteQuiet(s1, Emitted(RequestCancelled(w.id, reason)));
      QuietOn(ReleaseListing(s, reason), s1, s);
    } else {
      QuietSelf(s);
    }
  }

  lemma QuietSelf(s: Agent)
    ensures Quiet(s, s)
  {
  }

  lemma CancelHeldQuiet(s: Agent, reason: string)
    ensures Quiet(CancelHeld(s, reason), s)
  {
    CancelEachQuiet(s.(held := map[]), s.held, Ascending(s.held.Keys), reason);
  }

  lemma CancelQuiet(s: Agent, reason: string)
    ensures Quiet(ReleaseListing(CancelHeld(s, reason), reason), s)
  {
    hide CancelHeld, ReleaseListing, Quiet;
    CancelHeldQuiet(s, reason);
    ReleaseListingQuiet(CancelHeld(s, reason), reason);
    QuietOn(ReleaseListing(CancelHeld(s, reason), reason), CancelHeld(s, reason), s);
  }

  lemma FailPendingQuiet(s: Agent)
    ensures Quiet(FailPending(s), s)
  {
    FailEachQuiet(s.(pending := map[]), s.pending, Ascending(s.pending.Keys));
  }

  lemma DrainQuiet(s: Agent, reason: string)
    ensures Quiet(ReleaseListing(CancelHeld(FailPending(s), reason), reason), s)
  {
    hide CancelHeld, ReleaseListing, FailPending, Quiet;
    FailPendingQuiet(s);
    CancelQuiet(FailPending(s), reason);
    QuietOn(ReleaseListing(CancelHeld(FailPending(s), reason), reason), FailPending(s), s);
  }

  // ---- submitting, approving, releasing ----

  lemma ReadQuiet(s: Agent)
    ensures Quiet(ReadClock(s), s)
  {
  }

  lemma SubmitQuiet(s: Agent, chan: Chan, blob: Blob, message: seq<byte>, flags: nat, peer: Peer, scope: SignScope)
    ensures Quiet(SubmitSign(s, chan, blob, message, flags, peer, scope), s)
  {
    hide Submit, FindPublic, AuthorizedSignature, Disconnect;
    var (m, submitted) := Submit(s.approvals, s.store.tracker.epoch, blob, peer, scope, Now(s));
    var s1 := ReadClock(s).(approvals := m);
    ReadQuiet(s);
    NoteQuiet(s1, Replied(chan, Failure));
    if submitted.Granted? {
      NoListing(s.store, submitted.authorization, message, flags);
      NoteQuiet(s1, Replied(chan, AuthorizedSignature(s.store, submitted.authorization, message, flags)));
    }
    var key := FindPublic(s.store.public, blob);
    if submitted.Queued? && key.Some? {
      NoteQuiet(s1, Emitted(ApprovalRequired(submitted.id, chan, key.value, peer, scope, Grantable(scope))));
    }
    assert Quiet(SubmitSign(s, chan, blob, message, flags, peer, scope), s1);
    QuietOn(SubmitSign(s, chan, blob, message, flags, peer, scope), s1, s);
  }

  lemma ApproveQueuedQuiet(s: Agent, id: RequestId, chan: Chan, d: GrantDuration)
    ensures Quiet(ApproveQueued(s, id, chan, d).0, s)
  {
    hide Approve;
    ReadQuiet(s);
    var s1 := ReadClock(s).(approvals := Approve(s.approvals, id, d, Now(s)).0);
    QuietSelf(s1);
    if s1.approvals.grants != [] { NoteQuiet(s1, Opened(s1.approvals.grants[|s1.approvals.grants| - 1], chan)); }
    assert Quiet(ApproveQueued(s, id, chan, d).0, s1);
    QuietOn(ApproveQueued(s, id, chan, d).0, s1, s);
  }

  lemma AnswerQuiet(s: Agent, chan: Chan, a: Option<Authorization>, message: seq<byte>, flags: nat)
    ensures Quiet(Answer(s, chan, a, message, flags), s)
  {
    hide AuthorizedSignature;
    if a.Some? { NoListing(s.store, a.value, message, flags); }
    NoteQuiet(s, Replied(chan, if a.Some? then AuthorizedSignature(s.store, a.value, message, flags) else Failure));
  }

  lemma SubmitApprovedQuiet(s: Agent, h: HeldSign, d: GrantDuration)
    ensures Quiet(SubmitApproved(s, h, d), s)
  {
    hide Submit, ApproveQueued, Answer, Adds;
    var (m, submitted) := Submit(s.approvals, s.store.tracker.epoch, h.blob, h.peer, h.scope, Now(s));
    var s1 := ReadClock(s).(approvals := m);
    ReadQuiet(s);
    var s' := SubmitApproved(s, h, d);
    match submitted {
      case Granted(a) => AnswerQuiet(s1, h.chan, Some(a), h.message, h.flags);
      case Queued(id) =>
        var (s2, a) := ApproveQueued(s1, id, h.chan, d);
        ApproveQueuedQuiet(s1, id, h.chan, d);
        AnswerQuiet(s2, h.chan, a, h.message, h.flags);
        QuietOn(s', s2, s1);
      case Rejected => NoteQuiet(s1, Replied(h.chan, Failure));
    }
    QuietOn(s', s1, s);
  }

  lemma SettleGrantedQuiet(s: Agent)
    ensures Quiet(SettleGranted(s), s)
  {
    hide ReleaseGranted, SettleEach;
    var (approvals, released) := ReleaseGranted(s.approvals, Now(s));
    var s1 := ReadClock(s).(approvals := approvals);
    ReadQuiet(s);
    SettleEachQuiet(s1, released);
    QuietOn(SettleGranted(s), s1, s);
  }

  lemma ReleaseOneQuiet(s: Agent, id: RequestId, h: HeldSign)
    ensures Quiet(ReleaseOne(s, id, h), s)
  {
    hide Authorize, SubmitSign, SubmitApproved, Adds;
    var s1 := Emit(s, RequestCancelled(id, "released"));
    NoteQuiet(s, Emitted(RequestCancelled(id, "released")));
    NoteQuiet(s1, Replied(h.chan, Failure));
    SubmitQuiet(s1, h.chan, h.blob, h.message, h.flags, h.peer, h.scope);
    if h.approved.Some? { SubmitApprovedQuiet(s1, h, h.approved.value); }
    assert Quiet(ReleaseOne(s, id, h), s1);
    QuietOn(ReleaseOne(s, id, h), s1, s);
  }

  lemma {:induction false} ReleaseEachQuiet(s: Agent, held: map<RequestId, HeldSign>, ids: seq<RequestId>)
    requires forall id | id in ids :: id in held
    ensures Quiet(ReleaseEach(s, held, ids), s)
  {
    hide ReleaseOne;
    if ids != [] {
      var front, id := ids[..|ids| - 1], ids[|ids| - 1];
      ReleaseEachQuiet(s, held, front);
      var s1 := ReleaseEach(s, held, front);
      ReleaseOneQuiet(s1, id, held[id]);
      QuietOn(ReleaseEach(s, held, ids), s1, s);
    }
  }

  lemma ReleaseHeldQuiet(s: Agent)
    ensures Quiet(ReleaseHeld(s), s)
  {
    hide ReleaseEach, SettleGranted;
    var ids := Ascending(s.held.Keys);
    var s1 := ReleaseEach(s.(held := map[]), s.held, ids);
    ReleaseEachQuiet(s.(held := map[]), s.held, ids);
    SettleGrantedQuiet(s1);
    QuietOn(ReleaseHeld(s), s1, s);
  }

  // ---- one event ----

  lemma ListingQuiet(s: Agent, chan: Chan, c: Client)
    ensures Quiet(HandleListing(s, chan, c), s)
  {
    hide ListKeys, Reserve;
    ListKeysIs(s.store.public);
    QuietSelf(s);
    NoteQuiet(s, Replied(chan, Listing(ListKeys(s.store.public))));
    var (approvals, id) := Reserve(s.approvals);
    if id.Some? {
      var prompt := Emitted(UnlockRequired(id.value, chan, None, c.peer, Scope(c), false));
      NotesQuiet(s, prompt, Clock(Now(s)));
    }
  }

  lemma HoldQuiet(s: Agent, chan: Chan, c: Client)
    requires c.request.SignData?
    ensures Quiet(HoldSign(s, chan, c), s)
  {
    hide FindPublic, Reserve;
    var key := FindPublic(s.store.public, c.request.blob);
    var (approvals, id) := Reserve(s.approvals);
    NoteQuiet(s, Replied(chan, Failure));
    if id.Some? {
      var prompt := Emitted(UnlockRequired(id.value, chan, key, c.peer, Scope(c), Grantable(Scope(c))));
      NotesQuiet(s, prompt, Clock(Now(s)));
    }
  }

  lemma ClientQuiet(s: Agent, c: Client)
    ensures Quiet(HandleClient(s, c), s)
  {
    hide SubmitSign, Authorize, HandleListing, HoldSign, Adds;
    var s1 := Note(s.(nextChan := s.nextChan + 1), Delivered(s.nextChan, c));
    NoteQuiet(s.(nextChan := s.nextChan + 1), Delivered(s.nextChan, c));
    NoteQuiet(s1, Replied(s.nextChan, Failure));
    ListingQuiet(s1, s.nextChan, c);
    if c.request.SignData? {
      HoldQuiet(s1, s.nextChan, c);
      SubmitQuiet(s1, s.nextChan, c.request.blob, c.request.message, c.request.flags, c.peer, Scope(c));
    }
    assert Quiet(HandleClient(s, c), s1);
    QuietOn(HandleClient(s, c), s1, s);
  }

  lemma ApproveQuiet(s: Agent, id: RequestId, d: GrantDuration)
    ensures Quiet(OnApprove(s, id, d), s)
  {
    hide Answer, SettleGranted, ApproveQueued, Adds;
    QuietSelf(s);
    if id !in s.held && id in s.pending {
      var sign := s.pending[id];
      var s0 := s.(pending := s.pending - {id});
      var (s1, a) := ApproveQueued(s0, id, sign.chan, d);
      ApproveQueuedQuiet(s0, id, sign.chan, d);
      var s2 := Answer(s1, sign.chan, a, sign.message, sign.flags);
      AnswerQuiet(s1, sign.chan, a, sign.message, sign.flags);
      QuietOn(s2, s1, s);
      SettleGrantedQuiet(s2);
      QuietOn(SettleGranted(s2), s2, s);
    }
  }

  /** Denying up to the listing. */
  ghost function Denied(s: Agent, id: RequestId): Agent {
    var s := s.(approvals := Disconnect(s.approvals, id));
    var s := if id in s.pending then Reply(s.(pending := s.pending - {id}), s.pending[id].chan, Failure) else s;
    if id in s.held then Reply(s.(held := s.held - {id}), s.held[id].chan, Failure) else s
  }

  lemma DenyQuiet(s: Agent, id: RequestId)
    ensures Quiet(Denied(s, id), s) && Quiet(OnDeny(s, id), s)
  {
    hide ReleaseListing, Disconnect;
    var s3 := Denied(s, id);
    QuietSelf(s);
    if id in s.pending { NoteQuiet(s, Replied(s.pending[id].chan, Failure)); }
    if id in s.held {
      NoteQuiet(s, Replied(s.held[id].chan, Failure));
      if id in s.pending { NotesQuiet(s, Replied(s.pending[id].chan, Failure), Replied(s.held[id].chan, Failure)); }
    }
    assert Quiet(s3, s);
    ReleaseListingQuiet(s3, "cancelled");
    QuietOn(ReleaseListing(s3, "cancelled"), s3, s);
  }

  lemma EmitGrantsQuiet(s: Agent)
    ensures Quiet(EmitGrants(s), s)
  {
  }

  lemma TickEndQuiet(s: Agent, closed: set<Chan>, now: nat)
    ensures Quiet(EmitGrants(Relisted(Dropped(Withdrawn(s, closed), closed, now), closed, now)), s)
  {
    hide Quiet, WithdrawEach, DropEach, ReleaseListing, EmitGrants, ListingDone, ExpiredIds, StaleIds;
    var s1 := Withdrawn(s, closed);
    WithdrawEachQuiet(s, Ascending(ExpiredIds(s, closed)));
    var s2 := Dropped(s1, closed, now);
    DropEachQuiet(s1, Ascending(StaleIds(s1, closed, now)));
    QuietOn(s2, s1, s);
    var s3 := Relisted(s2, closed, now);
    ReleaseListingQuiet(s2, "withdrawn");
    QuietSelf(s2);
    QuietOn(s3, s2, s);
    EmitGrantsQuiet(s3);
    QuietOn(EmitGrants(s3), s3, s);
  }
}
