/** How many messages each part of the agent's loop sends the panel, and which of them
    report a refused load. */
module AgentSends {
  import opened Base
  import opened KeyStoreModel
  import opened ApprovalModel
  import opened ObserverModel
  import opened AgentModel

  function Sent(log: Log): nat {
    match log
    case Empty => 0
    case Then(past, last) => Sent(past) + if last.Emitted? then 1 else 0
  }

  /** How many loads the panel has been told were refused. */
  function Refusals(log: Log): nat {
    match log
    case Empty => 0
    case Then(past, last) => Refusals(past) + if last.Emitted? && last.output.LoadFailed? then 1 else 0
  }

  /** From `s` to `s'` exactly `k` messages were sent, none of them about a refused load. */
  ghost predicate Sends(s': Agent, s: Agent, k: nat) {
    Sent(s'.log) == Sent(s.log) + k && Refusals(s'.log) == Refusals(s.log)
  }

  /** Only the log differs. */
  ghost predicate OnlyLogs(s': Agent, s: Agent) {
    s' == s.(log := s'.log)
  }

  // ---- the loops over tables ----

  lemma {:induction false} AnnounceSends(s: Agent, epoch: nat, public: seq<PublicIdentity>)
    ensures Sends(AnnounceEach(s, epoch, public), s, |public|) && OnlyLogs(AnnounceEach(s, epoch, public), s)
  {
    if public != [] {
      AnnounceSends(s, epoch, public[..|public| - 1]);
    }
  }

  lemma {:induction false} ReplyEachSends(s: Agent, chans: seq<Chan>, r: Response)
    ensures Sends(ReplyEach(s, chans, r), s, 0) && OnlyLogs(ReplyEach(s, chans, r), s)
  {
    if chans != [] {
      ReplyEachSends(s, chans[..|chans| - 1], r);
    }
  }

  lemma {:induction false} FailEachSends(s: Agent, pending: map<RequestId, PendingSign>, ids: seq<RequestId>)
    requires forall id | id in ids :: id in pending
    ensures Sends(FailEach(s, pending, ids), s, 0) && OnlyLogs(FailEach(s, pending, ids), s)
  {
    if ids != [] {
      FailEachSends(s, pending, ids[..|ids| - 1]);
    }
  }

  lemma {:induction false} CancelEachSends(s: Agent, held: map<RequestId, HeldSign>, ids: seq<RequestId>,
                                           reason: string)
    requires forall id | id in ids :: id in held
    ensures Sends(CancelEach(s, held, ids, reason), s, |ids|) && OnlyLogs(CancelEach(s, held, ids, reason), s)
  {
    if ids != [] {
      CancelEachSends(s, held, ids[..|ids| - 1], reason);
    }
  }

  lemma SettleOneSends(s: Agent, r: Request)
    ensures var s' := SettleOne(s, r);
            Sends(s', s, 1) && OnlyLogs(s', s.(pending := s'.pending))
  {
    hide AuthorizedSignature;
    if r.id in s.pending {
      var sign := s.pending[r.id];
      var a := AuthorizedSignature(s.store, Authorization(r.epoch, r.blob), sign.message, sign.flags);
      assert Sends(Reply(s.(pending := s.pending - {r.id}), sign.chan, a), s, 0);
    }
  }

  lemma {:induction false} SettleEachSends(s: Agent, released: seq<Request>)
    ensures var s' := SettleEach(s, released);
            Sends(s', s, |released|) && OnlyLogs(s', s.(pending := s'.pending))
  {
    if released != [] {
      hide SettleOne;
      var front := released[..|released| - 1];
      SettleEachSends(s, front);
      SettleOneSends(SettleEach(s, front), released[|released| - 1]);
    }
  }

  lemma {:induction false} WithdrawEachSends(s: Agent, ids: seq<RequestId>)
    ensures var s' := WithdrawEach(s, ids);
            && Sends(s', s, |ids|) && OnlyLogs(s', s.(pending := s'.pending, approvals := s'.approvals))
            && s'.approvals.grants == s.approvals.grants
            && forall r | r in s'.approvals.queue :: r in s.approvals.queue
  {
    if ids != [] {
      WithdrawEachSends(s, ids[..|ids| - 1]);
    }
  }

  lemma {:induction false} DropEachSends(s: Agent, ids: seq<RequestId>)
    ensures var s' := DropEach(s, ids);
            Sends(s', s, |ids|) && OnlyLogs(s', s.(held := s'.held))
  {
    if ids != [] {
      DropEachSends(s, ids[..|ids| - 1]);
    }
  }

  function Count(b: bool): nat {
    if b then 1 else 0
  }

  lemma ReleaseListingSends(s: Agent, reason: string)
    ensures var s' := ReleaseListing(s, reason);
            Sends(s', s, Count(s.listing.Some?)) && OnlyLogs(s', s.(listing := None))
  {
    if s.listing.Some? {
      ReplyEachSends(s.(listing := None), s.listing.value.waiting, Listing(ListKeys(s.store.public)));
    }
  }

  lemma CancelHeldSends(s: Agent, reason: string)
    ensures Sends(CancelHeld(s, reason), s, |s.held|) && OnlyLogs(CancelHeld(s, reason), s.(held := map[]))
  {
    CancelEachSends(s.(held := map[]), s.held, Ascending(s.held.Keys), reason);
    assert |s.held.Keys| == |s.held|;
  }

  lemma FailPendingSends(s: Agent)
    ensures Sends(FailPending(s), s, 0) && OnlyLogs(FailPending(s), s.(pending := map[]))
  {
    FailEachSends(s.(pending := map[]), s.pending, Ascending(s.pending.Keys));
  }

  /** Cancelling what is held, and the listing. */
  lemma CancelSends(s: Agent, reason: string)
    ensures var s' := ReleaseListing(CancelHeld(s, reason), reason);
            Sends(s', s, |s.held| + Count(s.listing.Some?)) && OnlyLogs(s', s.(held := map[], listing := None))
  {
    hide CancelHeld, ReleaseListing;
    CancelHeldSends(s, reason);
    ReleaseListingSends(CancelHeld(s, reason), reason);
  }

  /** And failing what is pending. */
  lemma DrainSends(s: Agent, reason: string)
    ensures var s' := ReleaseListing(CancelHeld(FailPending(s), reason), reason);
            && Sends(s', s, |s.held| + Count(s.listing.Some?))
            && OnlyLogs(s', s.(pending := map[], held := map[], listing := None))
  {
    hide CancelHeld, ReleaseListing, FailPending;
    FailPendingSends(s);
    CancelSends(FailPending(s), reason);
  }

  // ---- submitting and approving ----

  /** The request is put to the panel, rather than answered at once. */
  ghost predicate Prompts(s: Agent, blob: Blob, peer: Peer, scope: SignScope) {
    && Submit(s.approvals, s.store.tracker.epoch, blob, peer, scope, Now(s)).1.Queued?
    && FindPublic(s.store.public, blob).Some?
  }

  lemma SubmitSends(s: Agent, chan: Chan, blob: Blob, message: seq<byte>, flags: nat, peer: Peer, scope: SignScope)
    ensures Sends(SubmitSign(s, chan, blob, message, flags, peer, scope), s, Count(Prompts(s, blob, peer, scope)))
  {
    hide Submit, FindPublic, AuthorizedSignature;
    assert Sends(ReadClock(s), s, 0);
  }

  lemma ApproveQueuedSends(s: Agent, id: RequestId, chan: Chan, d: GrantDuration)
    ensures Sends(ApproveQueued(s, id, chan, d).0, s, 0)
  {
    hide Approve;
    assert Sends(ReadClock(s), s, 0);
  }

  lemma SubmitApprovedSends(s: Agent, h: HeldSign, d: GrantDuration)
    ensures Sends(SubmitApproved(s, h, d), s, 0)
  {
    hide Submit, AuthorizedSignature, ApproveQueued;
    var (m, submitted) := Submit(s.approvals, s.store.tracker.epoch, h.blob, h.peer, h.scope, Now(s));
    assert Sends(ReadClock(s), s, 0);
    if submitted.Queued? { ApproveQueuedSends(ReadClock(s).(approvals := m), submitted.id, h.chan, d); }
  }

  /** The queued requests that settling would release. */
  ghost function Settling(s: Agent): nat {
    |ReleaseGranted(s.approvals, Now(s)).1|
  }

  lemma SettleGrantedSends(s: Agent)
    ensures Sends(SettleGranted(s), s, Settling(s)) && Settling(s) <= |s.approvals.queue|
  {
    var (approvals, released) := ReleaseGranted(s.approvals, Now(s));
    SettleEachSends(ReadClock(s).(approvals := approvals), released);
  }

  /** Releasing one held request: it is taken back, and perhaps put to the panel anew. */
  ghost predicate Reprompts(s: Agent, h: HeldSign) {
    Authorize(s.store, h.blob).Some? && h.approved.None? && Prompts(s, h.blob, h.peer, h.scope)
  }

  lemma ReleaseOneSends(s: Agent, id: RequestId, h: HeldSign)
    ensures Sends(ReleaseOne(s, id, h), s, 1 + Count(Reprompts(s, h)))
  {
    hide Authorize, SubmitSign, SubmitApproved;
    var s1 := Emit(s, RequestCancelled(id, "released"));
    SubmitSends(s1, h.chan, h.blob, h.message, h.flags, h.peer, h.scope);
    if h.approved.Some? { SubmitApprovedSends(s1, h, h.approved.value); }
  }

  /** How many of these are put to the panel anew, one after the other. */
  ghost function Reprompted(s: Agent, held: map<RequestId, HeldSign>, ids: seq<RequestId>): (n: nat)
    requires forall id | id in ids :: id in held
    ensures n <= |ids|
  {
    if ids == [] then 0
    else
      var front := ids[..|ids| - 1];
      Reprompted(s, held, front) + Count(Reprompts(ReleaseEach(s, held, front), held[ids[|ids| - 1]]))
  }

  lemma ReleaseEachStep(s: Agent, held: map<RequestId, HeldSign>, ids: seq<RequestId>)
    requires ids != [] && forall id | id in ids :: id in held
    ensures var front, id := ids[..|ids| - 1], ids[|ids| - 1];
            var s1 := ReleaseEach(s, held, front);
            && ReleaseEach(s, held, ids) == ReleaseOne(s1, id, held[id])
            && Reprompted(s, held, ids) == Reprompted(s, held, front) + Count(Reprompts(s1, held[id]))
  {
    hide ReleaseOne, Reprompts;
  }

  lemma {:induction false} ReleaseEachSends(s: Agent, held: map<RequestId, HeldSign>, ids: seq<RequestId>)
    requires forall id | id in ids :: id in held
    ensures Sends(ReleaseEach(s, held, ids), s, |ids| + Reprompted(s, held, ids))
  {
    hide Sent, Refusals, ReleaseOne, Reprompts;
    if ids != [] {
      var front, id := ids[..|ids| - 1], ids[|ids| - 1];
      ReleaseEachSends(s, held, front);
      ReleaseEachStep(s, held, ids);
      ReleaseOneSends(ReleaseEach(s, held, front), id, held[id]);
    }
  }

  /** The state once every held request has been released, and how many of those were put
      to the panel anew. */
  ghost function Freed(s: Agent): Agent {
    ReleaseEach(s.(held := map[]), s.held, Ascending(s.held.Keys))
  }

  ghost function Asked(s: Agent): (n: nat)
    ensures n <= |s.held|
  {
    assert |s.held.Keys| == |s.held|;
    Reprompted(s.(held := map[]), s.held, Ascending(s.held.Keys))
  }

  lemma FreedSends(s: Agent)
    ensures Sends(Freed(s), s, |s.held| + Asked(s))
  {
    hide ReleaseEach, Reprompted;
    ReleaseEachSends(s.(held := map[]), s.held, Ascending(s.held.Keys));
    assert |s.held.Keys| == |s.held|;
  }

  /** Releasing what is held sends exactly one message for every held request, one for each
      put to the panel anew, and one for each that a grant then settles. */
  lemma ReleaseHeldSends(s: Agent)
    ensures Sends(ReleaseHeld(s), s, |s.held| + Asked(s) + Settling(Freed(s)))
  {
    assert ReleaseHeld(s) == SettleGranted(Freed(s));
    hide ReleaseHeld, Freed, Asked, SettleGranted, Settling;
    FreedSends(s);
    SettleGrantedSends(Freed(s));
  }

  // ---- one message in ----

  lemma ListingSends(s: Agent, chan: Chan, c: Client)
    ensures exists k :: 0 <= k <= 1 && Sends(HandleListing(s, chan, c), s, k)
  {
    hide ListKeys;
    var (approvals, id) := Reserve(s.approvals);
    if id.Some? {
      var s1 := Emit(s.(approvals := approvals), UnlockRequired(id.value, chan, None, c.peer, Scope(c), false));
      assert Sends(s1, s, 1) && Sends(ReadClock(s1), s1, 0);
    }
    assert Sends(HandleListing(s, chan, c), s, 0) || Sends(HandleListing(s, chan, c), s, 1);
  }

  lemma HoldSends(s: Agent, chan: Chan, c: Client)
    requires c.request.SignData?
    ensures exists k :: 0 <= k <= 1 && Sends(HoldSign(s, chan, c), s, k)
  {
    hide FindPublic;
    var (approvals, id) := Reserve(s.approvals);
    if id.Some? {
      var key := FindPublic(s.store.public, c.request.blob);
      var s1 := Emit(s.(approvals := approvals),
                     UnlockRequired(id.value, chan, key, c.peer, Scope(c), Grantable(Scope(c))));
      assert Sends(s1, s, 1) && Sends(ReadClock(s1), s1, 0);
    }
    assert Sends(HoldSign(s, chan, c), s, 0) || Sends(HoldSign(s, chan, c), s, 1);
  }

  lemma ClientSends(s: Agent, c: Client)
    ensures exists k :: 0 <= k <= 1 && Sends(HandleClient(s, c), s, k)
  {
    hide SubmitSign, Authorize, HandleListing, HoldSign;
    var s1 := Note(s.(nextChan := s.nextChan + 1), Delivered(s.nextChan, c));
    assert Sends(s1, s, 0);
    ListingSends(s1, s.nextChan, c);
    if c.request.SignData? {
      HoldSends(s1, s.nextChan, c);
      SubmitSends(s1, s.nextChan, c.request.blob, c.request.message, c.request.flags, c.peer, Scope(c));
    }
    assert Sends(HandleClient(s, c), s, 0) || Sends(HandleClient(s, c), s, 1);
  }

  lemma ApproveSends(s: Agent, id: RequestId, d: GrantDuration)
    requires |s.approvals.queue| <= MAX_PENDING
    ensures exists k :: 0 <= k <= MAX_PENDING && Sends(OnApprove(s, id, d), s, k)
  {
    if id !in s.held && id in s.pending {
      hide AuthorizedSignature, SettleGranted, ApproveQueued;
      var sign := s.pending[id];
      var s0 := s.(pending := s.pending - {id});
      ApproveQueuedSends(s0, id, sign.chan, d);
      ApproveQueuedQueue(s0, id, sign.chan, d);
      var (s1, a) := ApproveQueued(s0, id, sign.chan, d);
      var s2 := Answer(s1, sign.chan, a, sign.message, sign.flags);
      SettleGrantedSends(s2);
      assert Sends(OnApprove(s, id, d), s, if d != Once then Settling(s2) else 0);
    } else {
      assert Sends(OnApprove(s, id, d), s, 0);
    }
  }

  lemma ApproveQueuedQueue(s: Agent, id: RequestId, chan: Chan, d: GrantDuration)
    ensures |ApproveQueued(s, id, chan, d).0.approvals.queue| <= |s.approvals.queue|
  {
  }

  lemma DenySends(s: Agent, id: RequestId)
    ensures exists k :: 0 <= k <= 1 && Sends(OnDeny(s, id), s, k)
  {
    hide ReleaseListing, Disconnect;
    var s1 := s.(approvals := Disconnect(s.approvals, id));
    var s2 := if id in s.pending then Reply(s1.(pending := s.pending - {id}), s.pending[id].chan, Failure) else s1;
    var s3 := if id in s.held then Reply(s2.(held := s.held - {id}), s.held[id].chan, Failure) else s2;
    assert Sends(s2, s1, 0) && Sends(s3, s2, 0);
    ReleaseListingSends(s3, "cancelled");
    assert Sends(OnDeny(s, id), s, 0) || Sends(OnDeny(s, id), s, 1);
  }

  /** Any message of the panel but the one that ends a load. */
  lemma ControlSends(s: Agent, c: Control)
    requires !c.KeyLoadEnd? && |s.held| <= MAX_PENDING && |s.approvals.queue| <= MAX_PENDING
    ensures exists k :: 0 <= k <= MAX_PENDING + 2 && Sends(OnControl(s, c), s, k)
  {
    hide Sent, Refusals, Deactivate, OnApprove, OnDeny, Finish, OnLoadBegin, RevokeAllGrants, RevokeGrant;
    var s1 := Note(s, Told(c));
    NoteSends(s, Told(c));
    assert Sends(s1, s, 0);
    match c
    case Hello =>
      NoteSends(s1.(handshake := true, gateOpen := true), Emitted(Ready));
      assert Sends(OnControl(s, c), s, 0) || Sends(OnControl(s, c), s, 1);
    case Options(_) => assert Sends(OnControl(s, c), s, 0);
    case VaultLocked(epoch) =>
      var s2 := Deactivate(s1, Lock(s.store, epoch), "locked");
      DeactivateSends(s1, Lock(s.store, epoch), "locked");
      NoteSends(s2, Emitted(LockedAck(epoch)));
      assert Sends(OnControl(s, c), s, |s.held| + Count(s.listing.Some?) + 1);
    case VaultLoggedOut =>
      DeactivateSends(s1, Logout(s.store, SatAdd(s.store.tracker.epoch, 1)), "logged-out");
      assert Sends(OnControl(s, c), s, |s.held| + Count(s.listing.Some?));
    case ApproveRequest(id, d) =>
      ApproveSends(s1, id, d);
      var k :| 0 <= k <= MAX_PENDING && Sends(OnApprove(s1, id, d), s1, k);
      assert Sends(OnControl(s, c), s, k);
    case Deny(id) =>
      DenySends(s1, id);
      var k :| 0 <= k <= 1 && Sends(OnDeny(s1, id), s1, k);
      assert Sends(OnControl(s, c), s, k);
    case UnlockCancelled(id) =>
      DenySends(s1, id);
      var k :| 0 <= k <= 1 && Sends(OnDeny(s1, id), s1, k);
      assert Sends(OnControl(s, c), s, k);
    case RevokeGrants => assert Sends(OnControl(s, c), s, 0);
    case RevokeOne(g) => assert Sends(OnControl(s, c), s, 0);
    case Shutdown =>
      FinishSends(s1);
      assert Sends(OnControl(s, c), s, |s.held| + Count(s.listing.Some?));
    case KeyLoadBegin(epoch, loadId) =>
      LoadBeginSends(s1, epoch, loadId);
      assert Sends(OnControl(s, c), s, 0);
  }

  lemma NoteSends(s: Agent, e: Entry)
    ensures Sent(Note(s, e).log) == Sent(s.log) + Count(e.Emitted?)
    ensures Refusals(Note(s, e).log) == Refusals(s.log) + Count(e.Emitted? && e.output.LoadFailed?)
  {
  }

  lemma DeactivateSends(s: Agent, store: Store, reason: string)
    ensures Sends(Deactivate(s, store, reason), s, |s.held| + Count(s.listing.Some?))
  {
    hide FailPending, CancelHeld, ReleaseListing;
    DrainSends(s.(gateOpen := false, load := None, store := store, approvals := InvalidateAll(s.approvals)), reason);
  }

  lemma FinishSends(s: Agent)
    ensures Sends(Finish(s), s, |s.held| + Count(s.listing.Some?))
  {
    hide FailPending, CancelHeld, ReleaseListing;
    DrainSends(s.(approvals := InvalidateAll(s.approvals), load := None), "shutdown");
  }

  lemma LoadBeginSends(s: Agent, epoch: nat, loadId: seq<byte>)
    ensures Sends(OnLoadBegin(s, epoch, loadId), s, 0)
  {
    hide FailPending;
    FailPendingSends(s.(gateOpen := false, approvals := InvalidateAll(s.approvals)));
  }

  // ---- settling a load ----

  /** A refused load is reported once, and everything held is cancelled; a published one is
      not reported as refused. */
  lemma SettleLoadReports(s: Agent)
    ensures var s' := SettleLoad(s);
            if FinishLoad(s).1.LoadRefused? then
              && Sent(s'.log) == Sent(s.log) + 1 + |s.held| + Count(s.listing.Some?)
              && Refusals(s'.log) == Refusals(s.log) + 1
              && OnlyLogs(s', s.(load := None, store := s'.store, gateOpen := false, held := map[], listing := None))
            else Refusals(s'.log) == Refusals(s.log)
  {
    hide Sent, Refusals, FinishLoad, ReleaseHeld, CancelHeld, ReleaseListing;
    FinishLoadSends(s);
    var (s1, outcome) := FinishLoad(s);
    ReleaseHeldSends(s1);
    ReleaseListingSends(ReleaseHeld(s1), "released");
    CancelSends(s1, "load-failed");
  }

  lemma FinishLoadSends(s: Agent)
    ensures var (s', outcome) := FinishLoad(s);
            && s'.held == s.held && s'.listing == s.listing && s'.pending == s.pending && s'.approvals == s.approvals
            && s'.readings == s.readings && s'.clock == s.clock
            && match outcome
               case StillLoading => s' == s
               case Published => Sends(s', s, |s'.store.public| + 1)
               case LoadRefused =>
                 && Sent(s'.log) == Sent(s.log) + 1 && Refusals(s'.log) == Refusals(s.log) + 1
                 && OnlyLogs(s', s.(load := None, store := s'.store, gateOpen := false))
  {
    hide LoadInto, AnnounceEach, Lock;
    if s.load.Some? && s.load.value.payload.Some? {
      var (store, ok) := LoadInto(s.store, s.load.value);
      AnnounceSends(s.(load := None, store := store, gateOpen := true), s.load.value.epoch, store.public);
    }
  }

  // ---- the clock tick ----

  /** The panel ended this load, and the FIFO has not delivered within the grace period. */
  ghost predicate Overdue(s: Agent, now: nat) {
    s.load.Some? && s.load.value.ended && s.load.value.payload.None? && s.load.value.deadline.Some?
    && now >= s.load.value.deadline.value
  }

  lemma ExpireLoadSends(s: Agent, now: nat)
    ensures var s' := ExpireLoad(s, now);
            if Overdue(s, now) then
              && Sent(s'.log) == Sent(s.log) + 1 + |s.held| + Count(s.listing.Some?)
              && Refusals(s'.log) == Refusals(s.log) + 1
              && OnlyLogs(s', s.(load := None, store := s'.store, gateOpen := false, held := map[], listing := None))
            else s' == s.(load := s'.load)
  {
    hide Sent, Refusals, ReleaseHeld, CancelHeld, ReleaseListing, Lock;
    if s.load.Some? {
      SettleLoadReports(s.(load := Some(s.load.value.(payload := Some(ReadFailed)))));
    }
  }

  /** The pending requests whose client has left or whose place in the queue has expired. */
  ghost function Lapsed(s: Agent, closed: set<Chan>): set<RequestId> {
    set id | id in s.pending && (s.pending[id].chan in closed || !IsQueued(Expire(s.approvals, Now(s)), id))
  }

  ghost predicate ListingOver(s: Agent, closed: set<Chan>) {
    s.listing.Some? && ListingDone(s.listing.value, closed, Now(s))
  }

  ghost predicate GrantsMoved(s: Agent) {
    GrantIds(LiveGrants(s.approvals.grants, Now(s))) != s.snapshot
  }

  /** What one tick sends, from the state before it. */
  ghost function TickBurst(s: Agent, closed: set<Chan>): nat {
    |Lapsed(s, closed)| + Count(GrantsMoved(s)) +
    if Overdue(s, Now(s)) then 1 + |s.held| + Count(s.listing.Some?)
    else |StaleIds(s, closed, Now(s))| + Count(ListingOver(s, closed))
  }

  lemma EmitGrantsSends(s: Agent)
    ensures Sends(EmitGrants(s), s, Count(GrantIds(s.approvals.grants) != s.snapshot))
  {
  }

  // The stages of a tick after the load.

  ghost function Withdrawn(s: Agent, closed: set<Chan>): Agent {
    WithdrawEach(s, Ascending(ExpiredIds(s, closed)))
  }

  ghost function Dropped(s: Agent, closed: set<Chan>, now: nat): Agent {
    DropEach(s, Ascending(StaleIds(s, closed, now)))
  }

  ghost function Relisted(s: Agent, closed: set<Chan>, now: nat): Agent {
    if s.listing.Some? && ListingDone(s.listing.value, closed, now) then ReleaseListing(s, "withdrawn") else s
  }

  lemma WithdrawnSends(s: Agent, closed: set<Chan>)
    ensures var s' := Withdrawn(s, closed);
            && Sends(s', s, |ExpiredIds(s, closed)|)
            && s'.held == s.held && s'.listing == s.listing && s'.snapshot == s.snapshot
            && s'.approvals.grants == s.approvals.grants
  {
    hide Sent, Refusals, WithdrawEach, ExpiredIds;
    WithdrawEachSends(s, Ascending(ExpiredIds(s, closed)));
  }

  lemma DroppedSends(s: Agent, closed: set<Chan>, now: nat)
    ensures var s' := Dropped(s, closed, now);
            Sends(s', s, |StaleIds(s, closed, now)|) && OnlyLogs(s', s.(held := s'.held))
  {
    hide Sent, Refusals, DropEach, StaleIds;
    DropEachSends(s, Ascending(StaleIds(s, closed, now)));
  }

  lemma RelistedSends(s: Agent, closed: set<Chan>, now: nat)
    ensures var s' := Relisted(s, closed, now);
            && Sends(s', s, Count(s.listing.Some? && ListingDone(s.listing.value, closed, now)))
            && s'.approvals == s.approvals && s'.snapshot == s.snapshot
  {
    hide Sent, Refusals, ReleaseListing, ListingDone;
    ReleaseListingSends(s, "withdrawn");
  }

  lemma TickEndSends(s: Agent, closed: set<Chan>, now: nat)
    ensures Sends(EmitGrants(Relisted(Dropped(Withdrawn(s, closed), closed, now), closed, now)), s,
                  |ExpiredIds(s, closed)| + |StaleIds(s, closed, now)|
                  + Count(s.listing.Some? && ListingDone(s.listing.value, closed, now))
                  + Count(GrantIds(s.approvals.grants) != s.snapshot))
  {
    hide Sent, Refusals, Withdrawn, Dropped, Relisted, GrantIds, EmitGrants, ListingDone, ExpiredIds;
    WithdrawnSends(s, closed);
    var s1 := Withdrawn(s, closed);
    assert StaleIds(s1, closed, now) == StaleIds(s, closed, now);
    DroppedSends(s1, closed, now);
    var s2 := Dropped(s1, closed, now);
    RelistedSends(s2, closed, now);
    EmitGrantsSends(Relisted(s2, closed, now));
  }

  lemma TickStages(s: Agent, closed: set<Chan>)
    ensures var now := Now(s);
            var s1 := ExpireLoad(ReadClock(s).(approvals := Expire(s.approvals, now)), now);
            OnTick(s, closed) == EmitGrants(Relisted(Dropped(Withdrawn(s1, closed), closed, now), closed, now))
  {
    hide ExpireLoad, WithdrawEach, DropEach, ReleaseListing, EmitGrants, ListingDone, Expire, ExpiredIds, StaleIds;
  }

  lemma ExpireLoadTables(s: Agent, closed: set<Chan>)
    ensures var now := Now(s);
            var s0 := ReadClock(s).(approvals := Expire(s.approvals, now));
            var s1 := ExpireLoad(s0, now);
            && Overdue(s0, now) == Overdue(s, now)
            && ExpiredIds(s1, closed) == Lapsed(s, closed)
            && StaleIds(s1, closed, now) == if Overdue(s, now) then {} else StaleIds(s, closed, now)
  {
    hide Sent, Refusals, ExpireLoad, Position, Expire;
    ExpireLoadSends(ReadClock(s).(approvals := Expire(s.approvals, Now(s))), Now(s));
  }

  /** A tick sends exactly its burst, and reports a refused load exactly when one is overdue. */
  lemma TickSends(s: Agent, closed: set<Chan>)
    ensures Sent(OnTick(s, closed).log) == Sent(s.log) + TickBurst(s, closed)
    ensures Refusals(OnTick(s, closed).log) == Refusals(s.log) + Count(Overdue(s, Now(s)))
  {
    hide Sent, Refusals, OnTick, ExpireLoad, Withdrawn, Dropped, Relisted, GrantIds, EmitGrants, ListingDone,
         Position, LiveRequests, LiveGrants, ExpiredIds, StaleIds, Lapsed, Overdue;
    var now := Now(s);
    NoteSends(s, Clock(now));
    var s1 := ReadClock(s).(approvals := Expire(s.approvals, now));
    TickStages(s, closed);
    ExpireLoadSends(s1, now);
    ExpireLoadTables(s, closed);
    TickEndSends(ExpireLoad(s1, now), closed, now);
  }
}
