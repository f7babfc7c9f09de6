/** What becomes of each held request when the load it waited for is published. */
module AgentReleased {
  import opened Base
  import opened KeyStoreModel
  import opened ApprovalModel
  import opened ObserverModel
  import opened AgentModel
  import opened AgentInvariant
  import opened AgentArms
  import opened AgentRelease
  import opened AgentDrain
  import opened AgentSafety
  import opened AgentAnswers
  import AgentSends
  import AgentTrace
  import AgentOutcomes
  import Spill = AgentSpill

  // ---- what is to become of them ----

  /** By the clock, less than two minutes pass between any two of these readings. */
  ghost predicate Brisk(clock: nat -> nat, lo: nat, hi: nat) {
    forall j, k | lo <= j <= k < hi :: Spill.At(clock, k) < AgentOutcomes.MsLater(Spill.At(clock, j), 120_000)
  }

  /** Its deadline is two minutes after one of these readings. */
  ghost predicate Timed(r: Request, clock: nat -> nat, lo: nat, hi: nat) {
    exists k :: lo <= k < hi && r.deadline == AgentOutcomes.MsLater(Spill.At(clock, k), 120_000)
  }

  /** `r` asks the panel for what `h` asked for, and its client waits for the answer. */
  ghost predicate AskedAs(s: Agent, h: HeldSign, r: Request, lo: nat) {
    && r.id in s.pending && s.pending[r.id] == PendingSign(h.chan, h.message, h.flags)
    && r.blob == h.blob && r.peer == h.peer && r.scope == h.scope
    && r.epoch == s.store.tracker.epoch && Timed(r, s.clock, lo, s.readings)
  }

  ghost predicate Asked(s: Agent, h: HeldSign, lo: nat) {
    exists r :: r in s.approvals.queue && AskedAs(s, h, r, lo)
  }

  /** Without its key it is refused. Approved ahead, it has the store's own answer. Otherwise
      a window has given it that answer, or the panel is asked anew. */
  ghost predicate Handled(s: Agent, h: HeldSign, lo: nat) {
    var answer := KeyAnswer(s.store, h.blob, h.message, h.flags);
    if !AgentOutcomes.Loaded(s.store, h.blob) then AnsweredWith(s, h.chan, Failure)
    else
      || AnsweredWith(s, h.chan, answer)
      || (h.approved.None? && Asked(s, h, lo))
  }

  // ---- one request ----

  /** Ids and places for `n` more requests. */
  predicate Spare(m: Manager, n: nat) {
    && m.nextId + n <= 0xFFFF_FFFF_FFFF_FFFF && m.nextGrantId + n <= 0xFFFF_FFFF_FFFF_FFFF
    && |m.queue| + n <= 4
  }

  /** A release begins and goes on like this. */
  ghost predicate Underway(s: Agent, n: nat) {
    Spill.Ready(s) && ValidStore(s.store) && s.store.tracker.state == Unlocked && Spare(s.approvals, n)
  }

  lemma UnloadedHandled(s: Agent, id: RequestId, h: HeldSign, lo: nat)
    requires ValidStore(s.store) && s.store.tracker.state == Unlocked && Authorize(s.store, h.blob).None?
    ensures Handled(ReleaseOne(s, id, h), h, lo)
  {
    hide Authorize, KeyAnswer, Observe, SubmitSign, SubmitApproved;
    AgentOutcomes.LoadedExactly(s.store, h.blob);
    ReplyObserved(Emit(s, RequestCancelled(id, "released")), h.chan, Failure);
  }

  lemma PlainHandled(s: Agent, id: RequestId, h: HeldSign, lo: nat)
    requires Underway(s, 1) && h.peer.uid == s.approvals.uid && lo <= s.readings
    requires Authorize(s.store, h.blob).Some? && h.approved.None?
    ensures Handled(ReleaseOne(s, id, h), h, lo)
  {
    hide Authorize, KeyAnswer, Observe, SubmitSign, FindPublic, Expire, AuthorizedSignature, Covered;
    AgentOutcomes.LoadedExactly(s.store, h.blob);
    var s1 := Emit(s, RequestCancelled(id, "released"));
    var s2 := Expired(s1);
    SubmitShape(s1, h.chan, h.blob, h.message, h.flags, h.peer, h.scope);
    ExpireShorter(s.approvals, Now(s));
    Spill.ExpireKeepsIds(s.approvals, Now(s));
    AuthorizedIsKeyAnswer(s.store, h.blob, h.message, h.flags);
    ReplyObserved(s2, h.chan, KeyAnswer(s.store, h.blob, h.message, h.flags));
    if !Covered(s2.approvals.grants, s.store.tracker.epoch, h.blob, h.peer, h.scope) {
      var r := NewRequest(s2.approvals, s.store.tracker.epoch, h.blob, h.peer, h.scope, Now(s1));
      var s' := ReleaseOne(s, id, h);
      assert s'.approvals.queue[|s2.approvals.queue|] == r;
      assert Timed(r, s.clock, lo, s'.readings) by {
        assert r.deadline == AgentOutcomes.MsLater(Spill.At(s.clock, s.readings), 120_000);
      }
      assert AskedAs(s', h, r, lo);
    }
  }

  lemma ApprovedHandled(s: Agent, id: RequestId, h: HeldSign, lo: nat)
    requires Underway(s, 1) && h.peer.uid == s.approvals.uid && lo <= s.readings
    requires Authorize(s.store, h.blob).Some? && h.approved.Some?
    requires Brisk(s.clock, lo, ReleaseOne(s, id, h).readings)
    ensures Handled(ReleaseOne(s, id, h), h, lo)
  {
    hide Authorize, KeyAnswer, Observe, SubmitApproved, FindPublic, Expire, AuthorizedSignature, Covered,
         ApproveFresh, Consume;
    AgentOutcomes.LoadedExactly(s.store, h.blob);
    var d := h.approved.value;
    var s1 := Emit(s, RequestCancelled(id, "released"));
    var s2 := Expired(s1);
    SubmitApprovedShape(s1, h, d);
    ExpireShorter(s.approvals, Now(s));
    Spill.ExpireKeepsIds(s.approvals, Now(s));
    AuthorizedIsKeyAnswer(s.store, h.blob, h.message, h.flags);
    ReplyObserved(s2, h.chan, KeyAnswer(s.store, h.blob, h.message, h.flags));
    if !Covered(s2.approvals.grants, s.store.tracker.epoch, h.blob, h.peer, h.scope) {
      var r := NewRequest(s2.approvals, s.store.tracker.epoch, h.blob, h.peer, h.scope, Now(s1));
      FreshExactly(s2, r, h, d);
      var (s3, a) := ApproveFresh(s2, r, h.chan, d);
      assert Spill.At(s.clock, s.readings + 1) < AgentOutcomes.MsLater(Spill.At(s.clock, s.readings), 120_000);
      ReplyObserved(s3, h.chan, KeyAnswer(s.store, h.blob, h.message, h.flags));
    }
  }

  /** The approval given ahead still stands when it is used: there is room, less than two
      minutes pass between queueing the request and approving it, and the window it asks
      for, if any, has an id left. */
  ghost predicate InTime(s: Agent, h: HeldSign)
    requires h.approved.Some?
  {
    var d := h.approved.value;
    && !NoRoom(Expire(s.approvals, Now(s)))
    && Spill.At(s.clock, s.readings + 1) < AgentOutcomes.MsLater(Spill.At(s.clock, s.readings), 120_000)
    && ((d == UntilScreenLock || (d.Seconds? && d.n > 0)) && !h.scope.forwarded && h.scope.kind != SignKind.Other
        ==> s.approvals.nextGrantId < 0xFFFF_FFFF_FFFF_FFFF)
  }

  /** On any clock: a request approved ahead is answered when it is released, with the
      store's own answer if a window answers it or its approval is used in time, and with a
      failure if not. */
  lemma ApprovedExactly(s: Agent, id: RequestId, h: HeldSign)
    requires Spill.Ready(s) && ValidStore(s.store) && h.peer.uid == s.approvals.uid
    requires AgentOutcomes.Loaded(s.store, h.blob) && h.approved.Some?
    ensures AnsweredWith(ReleaseOne(s, id, h), h.chan,
                         if Spill.GrantAnswers(s, h) || InTime(s, h)
                         then KeyAnswer(s.store, h.blob, h.message, h.flags) else Failure)
  {
    hide Authorize, KeyAnswer, Observe, SubmitApproved, FindPublic, Expire, AuthorizedSignature, Covered,
         ApproveFresh, AnsweredWith, AgentOutcomes.Loaded, ValidStore;
    AgentOutcomes.LoadedExactly(s.store, h.blob);
    LoadedUnlocked(s.store, h.blob);
    var d := h.approved.value;
    var s1 := Emit(s, RequestCancelled(id, "released"));
    var s2 := Expired(s1);
    SubmitApprovedShape(s1, h, d);
    Spill.ExpireKeepsIds(s.approvals, Now(s));
    AuthorizedIsKeyAnswer(s.store, h.blob, h.message, h.flags);
    if Spill.GrantAnswers(s, h) {
      ReplyObserved(s2, h.chan, KeyAnswer(s.store, h.blob, h.message, h.flags));
    } else if NoRoom(s2.approvals) {
      ReplyObserved(s2, h.chan, Failure);
    } else {
      var r := NewRequest(s2.approvals, s.store.tracker.epoch, h.blob, h.peer, h.scope, Now(s1));
      FreshExactly(s2, r, h, d);
      var (s3, a) := ApproveFresh(s2, r, h.chan, d);
      assert Spill.At(s.clock, s.readings) == Now(s1) && Spill.At(s.clock, s.readings + 1) == Now(s2);
      ReplyObserved(s3, h.chan, if InTime(s, h) then KeyAnswer(s.store, h.blob, h.message, h.flags) else Failure);
    }
  }

  lemma LoadedUnlocked(store: Store, blob: Blob)
    requires AgentOutcomes.Loaded(store, blob)
    ensures Allows(store.tracker, store.tracker.epoch)
  {
  }

  /** Queued and approved at once, it is authorised if it has not run out in between. */
  lemma FreshExactly(s: Agent, r: Request, h: HeldSign, d: GrantDuration)
    requires forall x | x in s.approvals.queue :: x.id != r.id
    ensures var (s', a) := ApproveFresh(s, r, h.chan, d);
            && s'.readings == s.readings + 1 && s'.store == s.store
            && a == if r.deadline > Now(s) && (OpensGrant(d, r.scope) ==> s.approvals.nextGrantId < U64_MAX)
                    then Some(Authorization(r.epoch, r.blob)) else None
  {
    hide Observe, Expire, ApproveFresh, Consume;
    ApproveFreshShape(s, r, h.chan, d);
    var s1 := Expired(IdSkipped(s));
    Spill.ExpireKeepsIds(IdSkipped(s).approvals, Now(s));
    ConsumeFrame(s1, h.chan, r, d);
  }

  lemma OneHandled(s: Agent, id: RequestId, h: HeldSign, lo: nat)
    requires Underway(s, 1) && h.peer.uid == s.approvals.uid && lo <= s.readings
    requires Brisk(s.clock, lo, ReleaseOne(s, id, h).readings)
    ensures Handled(ReleaseOne(s, id, h), h, lo)
  {
    hide Handled, ReleaseOne, Authorize, Brisk, Spill.Ready;
    if Authorize(s.store, h.blob).None? {
      UnloadedHandled(s, id, h, lo);
    } else if h.approved.None? {
      PlainHandled(s, id, h, lo);
    } else {
      ApprovedHandled(s, id, h, lo);
    }
  }

  // ---- the others, meanwhile ----

  lemma {:induction false} AddsExtends(log': Log, log: Log, keys: seq<(Blob, seq<byte>)>)
    requires AgentTrace.Adds(log', log, keys)
    ensures Extends(log', log)
  {
    if log' != log {
      AddsExtends(log'.past, log, keys);
    }
  }

  /** What is pending stays pending, and what is queued and not out of time stays queued. */
  ghost predicate Stands(s': Agent, s: Agent) {
    && s'.store == s.store && s'.clock == s.clock && s.readings <= s'.readings
    && (forall r | r in s.approvals.queue && Spill.Outlives(s.clock, r.deadline, s.readings, s'.readings) ::
          r in s'.approvals.queue)
    && (forall r | r in s.approvals.queue && r.id in s.pending ::
          r.id in s'.pending && s'.pending[r.id] == s.pending[r.id])
  }

  lemma HandledStays(s': Agent, s: Agent, uid: nat, h: HeldSign, lo: nat)
    requires Handled(s, h, lo) && Stands(s', s) && Extends(s'.log, s.log) && Accepted(s'.log, uid)
    requires Brisk(s.clock, lo, s'.readings)
    ensures Handled(s', h, lo)
  {
    hide KeyAnswer, Observe, Extends, Accepted, AgentOutcomes.Loaded;
    if h.chan in Observe(s.log).book.answered {
      AnswerStays(s'.log, uid, s.log, h.chan);
    }
    if Asked(s, h, lo) {
      var r :| r in s.approvals.queue && AskedAs(s, h, r, lo);
      var k :| lo <= k < s.readings && r.deadline == AgentOutcomes.MsLater(Spill.At(s.clock, k), 120_000);
      assert forall j | s.readings <= j < s'.readings :: Spill.At(s.clock, j) < r.deadline;
      assert AskedAs(s', h, r, lo);
    }
  }

  lemma ExpireStands(m: Manager, now: nat)
    ensures forall r | r in m.queue && now < r.deadline :: r in Expire(m, now).queue
  {
  }

  lemma PlainStands(s: Agent, id: RequestId, h: HeldSign)
    requires Spill.Ready(s) && ValidStore(s.store) && h.peer.uid == s.approvals.uid
    requires Authorize(s.store, h.blob).Some? && h.approved.None?
    ensures Stands(ReleaseOne(s, id, h), s)
  {
    hide Authorize, KeyAnswer, Observe, SubmitSign, FindPublic, Expire, AuthorizedSignature, Covered;
    var s1 := Emit(s, RequestCancelled(id, "released"));
    SubmitShape(s1, h.chan, h.blob, h.message, h.flags, h.peer, h.scope);
    Spill.ExpireKeepsIds(s.approvals, Now(s));
    ExpireStands(s.approvals, Now(s));
    assert Spill.At(s.clock, s.readings) == Now(s);
  }

  lemma ApprovedStands(s: Agent, id: RequestId, h: HeldSign)
    requires Spill.Ready(s) && ValidStore(s.store) && h.peer.uid == s.approvals.uid
    requires Authorize(s.store, h.blob).Some? && h.approved.Some?
    ensures Stands(ReleaseOne(s, id, h), s)
  {
    hide Authorize, Observe, SubmitApproved, FindPublic, Expire, AuthorizedSignature, Covered, ApproveFresh;
    var d := h.approved.value;
    var s1 := Emit(s, RequestCancelled(id, "released"));
    var s2 := Expired(s1);
    SubmitApprovedShape(s1, h, d);
    Spill.ExpireKeepsIds(s.approvals, Now(s));
    ExpireStands(s.approvals, Now(s));
    var r := NewRequest(s2.approvals, s.store.tracker.epoch, h.blob, h.peer, h.scope, Now(s1));
    FreshStands(s2, r, h, d);
    assert Spill.At(s.clock, s.readings) == Now(s);
    assert Spill.At(s.clock, s.readings + 1) == Now(s2);
  }

  lemma FreshStands(s: Agent, r: Request, h: HeldSign, d: GrantDuration)
    requires forall x | x in s.approvals.queue :: x.id != r.id
    ensures var s' := ApproveFresh(s, r, h.chan, d).0;
            && s'.readings == s.readings + 1 && s'.store == s.store && s'.clock == s.clock && s'.pending == s.pending
            && forall x | x in s.approvals.queue && Now(s) < x.deadline :: x in s'.approvals.queue
  {
    hide Observe, Expire, ApproveFresh, Consume;
    ApproveFreshShape(s, r, h.chan, d);
    ExpireStands(IdSkipped(s).approvals, Now(s));
    ConsumeFrame(Expired(IdSkipped(s)), h.chan, r, d);
  }

  lemma ReleaseStands(s: Agent, id: RequestId, h: HeldSign)
    requires Spill.Ready(s) && ValidStore(s.store) && h.peer.uid == s.approvals.uid
    ensures Stands(ReleaseOne(s, id, h), s) && Extends(ReleaseOne(s, id, h).log, s.log)
  {
    AgentTrace.ReleaseOneQuiet(s, id, h);
    AddsExtends(ReleaseOne(s, id, h).log, s.log, AgentTrace.Names(s.store.public));
    hide Authorize, Spill.Ready, ValidStore;
    if Authorize(s.store, h.blob).None? {
    } else {
      hide ReleaseOne;
      if h.approved.None? { PlainStands(s, id, h); } else { ApprovedStands(s, id, h); }
    }
  }

  // ---- all of them ----

  lemma OneUnderway(s: Agent, id: RequestId, h: HeldSign, n: nat)
    requires Underway(s, n + 1) && h.peer.uid == s.approvals.uid
    ensures var s' := ReleaseOne(s, id, h);
            Underway(s', n) && s'.approvals.uid == s.approvals.uid && s.readings <= s'.readings && s'.clock == s.clock
  {
    hide ReleaseOne, Authorize, Expire, Covered, ValidStore, Spill.Ready, Spill.Asking;
    ExpireShorter(s.approvals, Now(s));
    Spill.ExpireKeepsIds(s.approvals, Now(s));
    if Authorize(s.store, h.blob).None? {
      Spill.UnauthorisedRelease(s, id, h);
    } else if h.approved.None? {
      Spill.PlainRelease(s, id, h);
    } else {
      Spill.ApprovedRelease(s, id, h);
      var m := Expire(s.approvals, Now(s));
      ExpireShorter(m.(nextId := m.nextId + 1), Spill.NextNow(s));
      Spill.ExpireKeepsIds(m.(nextId := m.nextId + 1), Spill.NextNow(s));
    }
  }

  ghost predicate AllHandled(s: Agent, held: map<RequestId, HeldSign>, ids: seq<RequestId>, lo: nat) {
    forall id | id in ids && id in held :: Handled(s, held[id], lo)
  }

  lemma {:induction false} EachHandled(s: Agent, held: map<RequestId, HeldSign>, f: set<Chan>, ids: seq<RequestId>,
                                       n: nat)
    requires Core(s, held, f) && Live(s) && Increasing(ids) && Underway(s, |ids| + n)
    requires forall id | id in ids :: id in held
    requires Brisk(s.clock, s.readings, ReleaseEach(s, held, ids).readings)
    ensures var s' := ReleaseEach(s, held, ids);
            && AllHandled(s', held, ids, s.readings) && Underway(s', n)
            && s'.approvals.uid == s.approvals.uid && s.readings <= s'.readings && s'.clock == s.clock
  {
    if ids != [] {
      HeldUids(s, held, f);
      hide Core, Underway, ReleaseOne, Handled, IdSet, Accepted;
      var front, id := ids[..|ids| - 1], ids[|ids| - 1];
      var s1 := ReleaseEach(s, held, front);
      var s' := ReleaseOne(s1, id, held[id]);
      ReleaseBriskly(s, held, ids);
      EachHandled(s, held, f, front, n + 1);
      OneUnderway(s1, id, held[id], n);
      OneMore(s1, id, held[id], s.readings, n);
      ReleaseEachKeeps(s, held, f, ids);
      CoreAccepted(s', held - IdSet(ids), f);
      forall other | other in front ensures Handled(s', held[other], s.readings) {
        assert Handled(s1, held[other], s.readings);
        HandledStays(s', s1, s'.approvals.uid, held[other], s.readings);
      }
      assert forall x | x in ids :: x in front || x == id;
    }
  }

  lemma OneMore(s: Agent, id: RequestId, h: HeldSign, lo: nat, n: nat)
    requires Underway(s, n + 1) && h.peer.uid == s.approvals.uid && lo <= s.readings
    requires Brisk(s.clock, lo, ReleaseOne(s, id, h).readings)
    ensures Handled(ReleaseOne(s, id, h), h, lo)
    ensures Stands(ReleaseOne(s, id, h), s) && Extends(ReleaseOne(s, id, h).log, s.log)
  {
    hide ReleaseOne, Handled, Stands, Brisk, Extends;
    OneHandled(s, id, h, lo);
    ReleaseStands(s, id, h);
  }

  /** The readings only grow along a release. */
  lemma ReleaseBriskly(s: Agent, held: map<RequestId, HeldSign>, ids: seq<RequestId>)
    requires ids != [] && forall id | id in ids :: id in held
    requires Brisk(s.clock, s.readings, ReleaseEach(s, held, ids).readings)
    ensures Brisk(s.clock, s.readings, ReleaseEach(s, held, ids[..|ids| - 1]).readings)
  {
    hide ReleaseOne;
    var front, id := ids[..|ids| - 1], ids[|ids| - 1];
    ReadingsGrow(ReleaseEach(s, held, front), id, held[id]);
  }

  lemma ReadingsGrow(s: Agent, id: RequestId, h: HeldSign)
    ensures s.readings <= ReleaseOne(s, id, h).readings
  {
    hide Authorize, SubmitSign, SubmitApproved;
    var s1 := Emit(s, RequestCancelled(id, "released"));
    SubmitReads(s1, h.chan, h.blob, h.message, h.flags, h.peer, h.scope);
    if h.approved.Some? { SubmitApprovedReads(s1, h, h.approved.value); }
  }

  lemma SubmitReads(s: Agent, chan: Chan, blob: Blob, message: seq<byte>, flags: nat, peer: Peer, scope: SignScope)
    ensures SubmitSign(s, chan, blob, message, flags, peer, scope).readings == s.readings + 1
  {
    hide Submit, FindPublic, AuthorizedSignature, Disconnect;
  }

  lemma SubmitApprovedReads(s: Agent, h: HeldSign, d: GrantDuration)
    ensures s.readings <= SubmitApproved(s, h, d).readings
  {
    hide Submit, ApproveQueued, AuthorizedSignature;
    var (approvals, submitted) := Submit(s.approvals, s.store.tracker.epoch, h.blob, h.peer, h.scope, Now(s));
    if submitted.Queued? { ApproveReads(ReadClock(s).(approvals := approvals), submitted.id, h.chan, d); }
  }

  lemma ApproveReads(s: Agent, id: RequestId, chan: Chan, d: GrantDuration)
    ensures ApproveQueued(s, id, chan, d).0.readings == s.readings + 1
  {
    hide Approve;
  }

  lemma CoreAccepted(s: Agent, h: map<RequestId, HeldSign>, f: set<Chan>)
    requires Core(s, h, f)
    ensures Accepted(s.log, s.approvals.uid) && DistinctIds(s.approvals.queue)
  {
  }

  // ---- the windows just opened ----

  lemma SettleOneAnswers(s: Agent, r: Request)
    requires r.id in s.pending
    ensures var sign := s.pending[r.id];
            AnsweredWith(SettleOne(s, r), sign.chan,
                         AuthorizedSignature(s.store, Authorization(r.epoch, r.blob), sign.message, sign.flags))
  {
    hide AuthorizedSignature, Observe;
    var sign := s.pending[r.id];
    var answer := AuthorizedSignature(s.store, Authorization(r.epoch, r.blob), sign.message, sign.flags);
    var s1 := Reply(s.(pending := s.pending - {r.id}), sign.chan, answer);
    ReplyObserved(s.(pending := s.pending - {r.id}), sign.chan, answer);
    EmitAnswersNobody(s1, RequestCancelled(r.id, "granted"));
  }

  lemma EmitAnswersNobody(s: Agent, out: Output)
    ensures Observe(Emit(s, out).log).book.answered == Observe(s.log).book.answered
  {
  }

  lemma SettleOneExtends(s: Agent, r: Request)
    ensures Extends(SettleOne(s, r).log, s.log)
  {
    hide AuthorizedSignature;
    if r.id in s.pending {
      var sign := s.pending[r.id];
      var answer := AuthorizedSignature(s.store, Authorization(r.epoch, r.blob), sign.message, sign.flags);
      assert Extends(Then(s.log, Replied(sign.chan, answer)), s.log);
    }
  }

  lemma {:induction false} SettleReaches(s: Agent, released: seq<Request>, i: nat)
    requires i < |released| && DistinctIds(released) && released[i].id in s.pending
    ensures var x := SettleEach(s, released[..i + 1]);
            var sign := s.pending[released[i].id];
            && AnsweredWith(x, sign.chan,
                            AuthorizedSignature(s.store, Authorization(released[i].epoch, released[i].blob),
                                                sign.message, sign.flags))
            && Extends(SettleEach(s, released).log, x.log)
  {
    hide AuthorizedSignature, SettleOne, Observe;
    var upTo := released[..i + 1];
    if i + 1 < |released| {
      var front := released[..|released| - 1];
      assert front[..i + 1] == upTo;
      SettleReaches(s, front, i);
      SettleOneExtends(SettleEach(s, front), released[|released| - 1]);
      ExtendsOn(SettleEach(s, released).log, SettleEach(s, front).log, SettleEach(s, upTo).log);
    } else {
      assert upTo == released;
      var front := released[..i];
      SettleFramed(s, front);
      forall r | r in front ensures r.id != released[i].id {
        var j :| 0 <= j < i && front[j] == r;
        assert released[j].id != released[i].id;
      }
      SettleOneAnswers(SettleEach(s, front), released[i]);
    }
  }

  lemma CoveredSplit(queue: seq<Request>, grants: seq<Grant>, r: Request)
    requires r in queue
    ensures r in CoveredRequests(queue, grants) || r in Uncovered(queue, grants)
  {
  }

  /** The queue and the requests a release then settles, after the clock is read. */
  ghost function Queueing(s: Agent): Agent {
    var s1 := Expired(s);
    s1.(approvals := s1.approvals.(queue := Uncovered(s1.approvals.queue, s1.approvals.grants)))
  }

  ghost function Settling(s: Agent): seq<Request> {
    CoveredRequests(Expired(s).approvals.queue, Expired(s).approvals.grants)
  }

  lemma SettleIs(s: Agent)
    ensures SettleGranted(s) == SettleEach(Queueing(s), Settling(s))
  {
    hide SettleEach, CoveredRequests, Uncovered, Expire;
  }

  lemma SettlingSplits(s: Agent, h: map<RequestId, HeldSign>, f: set<Chan>)
    requires Core(s, h, f)
    ensures DistinctIds(Settling(s))
    ensures forall r | r in s.approvals.queue && Now(s) < r.deadline ::
              r in Settling(s) || r in Queueing(s).approvals.queue
    ensures forall r, q | r in Settling(s) && q in Queueing(s).approvals.queue :: r.id != q.id
  {
    ExpiredKeeps(s, h, f);
    hide Core, CoveredRequests, Uncovered, Expire;
    var m := Expired(s).approvals;
    CoreAccepted(Expired(s), h, f);
    ExpireStands(s.approvals, Now(s));
    CoveredAndUncovered(m.queue, m.grants);
    forall r | r in m.queue ensures r in Settling(s) || r in Queueing(s).approvals.queue {
      CoveredSplit(m.queue, m.grants, r);
    }
  }

  /** A request just queued is answered by a window of its release, or stays queued. */
  lemma AskedSettles(s: Agent, f: set<Chan>, h: HeldSign, lo: nat)
    requires Core(s, map[], f) && s.store.tracker.state == Unlocked && Asked(s, h, lo) && h.approved.None?
    requires Brisk(s.clock, lo, s.readings + 1) && AgentOutcomes.Loaded(s.store, h.blob)
    ensures Handled(SettleGranted(s), h, lo)
  {
    hide Core, Accepted, Observe, SettleEach, KeyAnswer, AuthorizedSignature, Expire, SettleGranted, Settling,
         AgentOutcomes.Loaded, AnsweredWith, Extends;
    var s' := SettleGranted(s);
    SettleGrantedKeeps(s, map[], f);
    CoreAccepted(s', map[], f);
    var r :| r in s.approvals.queue && AskedAs(s, h, r, lo);
    var k :| lo <= k < s.readings && r.deadline == AgentOutcomes.MsLater(Spill.At(s.clock, k), 120_000);
    assert Spill.At(s.clock, s.readings) == Now(s) < r.deadline;
    SettleIs(s);
    SettlingSplits(s, map[], f);
    AgentSends.SettleEachSends(Queueing(s), Settling(s));
    if r in Settling(s) {
      SettledAnswer(s, s', h, r);
    } else {
      SettleFramed(Queueing(s), Settling(s));
      assert AskedAs(s', h, r, lo);
    }
  }

  lemma SettledAnswer(s: Agent, s': Agent, h: HeldSign, r: Request)
    requires s' == SettleEach(Queueing(s), Settling(s)) && Accepted(s'.log, s'.approvals.uid)
    requires DistinctIds(Settling(s)) && r in Settling(s) && s.store.tracker.state == Unlocked
    requires r.id in s.pending && s.pending[r.id] == PendingSign(h.chan, h.message, h.flags)
    requires r.blob == h.blob && r.epoch == s.store.tracker.epoch
    ensures AnsweredWith(s', h.chan, KeyAnswer(s.store, h.blob, h.message, h.flags))
  {
    hide Accepted, Observe, SettleEach, KeyAnswer, AuthorizedSignature, Expire, Settling, Extends, Uncovered;
    var released := Settling(s);
    var i :| 0 <= i < |released| && released[i] == r;
    SettleReaches(Queueing(s), released, i);
    AuthorizedIsKeyAnswer(s.store, h.blob, h.message, h.flags);
    AnswerStays(s'.log, s'.approvals.uid, SettleEach(Queueing(s), released[..i + 1]).log, h.chan);
  }

  lemma HandledSettles(s: Agent, f: set<Chan>, h: HeldSign, lo: nat)
    requires Core(s, map[], f) && s.store.tracker.state == Unlocked && Handled(s, h, lo)
    requires Brisk(s.clock, lo, s.readings + 1)
    ensures Handled(SettleGranted(s), h, lo)
  {
    hide Core, Observe, Accepted, SettleGranted, KeyAnswer, Asked, AgentOutcomes.Loaded, Extends;
    SettleGrantedKeeps(s, map[], f);
    CoreAccepted(SettleGranted(s), map[], f);
    if h.chan in Observe(s.log).book.answered {
      SettleGrantedExtends(s);
      AnswerStays(SettleGranted(s).log, s.approvals.uid, s.log, h.chan);
    }
    if !AnsweredWith(s, h.chan, KeyAnswer(s.store, h.blob, h.message, h.flags))
       && AgentOutcomes.Loaded(s.store, h.blob) {
      AskedSettles(s, f, h, lo);
    }
  }

  // ---- publishing a load ----

  lemma PublishedReady(s: Agent, h: map<RequestId, HeldSign>, f: set<Chan>)
    requires Core(s, h, f) && s.approvals.queue == []
    ensures Spill.Ready(s) && ValidStore(s.store)
  {
    CoreStore(s, h, f);
    hide Core, FindPublic, Authorize, ValidStore;
    forall blob | Authorize(s.store, blob).Some? ensures FindPublic(s.store.public, blob).Some? {
      KeyIsListed(s.store, blob);
    }
  }

  lemma ReleaseStarts(s: Agent, f: set<Chan>)
    requires Core(s, s.held, f) && Live(s) && s.approvals.queue == [] && Spare(s.approvals, |s.held|)
    ensures Underway(s.(held := map[]), |s.held|)
  {
    hide Core, ValidStore;
    PublishedReady(s, s.held, f);
    Spill.ReadyAnyHeld(s);
  }

  /** Every held request of a release is handled. */
  lemma ReleaseHandles(s: Agent, f: set<Chan>)
    requires Core(s, s.held, f) && Live(s) && s.approvals.queue == [] && Spare(s.approvals, |s.held|)
    requires Brisk(s.clock, s.readings, ReleaseHeld(s).readings)
    ensures ReleaseHeld(s).clock == s.clock
    ensures forall id | id in s.held :: Handled(ReleaseHeld(s), s.held[id], s.readings)
  {
    hide Core, SettleGranted, ReleaseEach, Ascending, IdSet, Handled, Underway, ValidStore, Spill.Ready;
    HeldUids(s, s.held, f);
    AllIds(s.held);
    var ids := Ascending(s.held.Keys);
    var s0 := s.(held := map[]);
    CoreDependsOn(s, s0, s.held, f);
    ReleaseStarts(s, f);
    var s1 := ReleaseEach(s0, s.held, ids);
    ReleaseEachKeeps(s0, s.held, f, ids);
    ReleaseEachFrame(s0, s.held, ids);
    SettleReads(s1);
    EachHandled(s0, s.held, f, ids, 0);
    forall id | id in s.held ensures Handled(ReleaseHeld(s), s.held[id], s.readings) {
      assert id in ids;
      HandledSettles(s1, f, s.held[id], s.readings);
    }
  }

  lemma SettleReads(s: Agent)
    ensures SettleGranted(s).readings == s.readings + 1 && SettleGranted(s).clock == s.clock
  {
    var (approvals, released) := ReleaseGranted(s.approvals, Now(s));
    hide ReleaseGranted, SettleEach;
    AgentSends.SettleEachSends(ReadClock(s).(approvals := approvals), released);
  }

  lemma LoadHandles(s: Agent)
    requires Inv(s) && !s.gateOpen && s.handshake && SettleLoad(s).gateOpen
    requires Spare(s.approvals, |s.held|)
    requires Brisk(s.clock, s.readings, SettleLoad(s).readings)
    ensures forall id | id in s.held :: Handled(SettleLoad(s), s.held[id], s.readings)
  {
    hide Core, Observe, FinishLoad, ReleaseHeld, CancelHeld, ReleaseListing, Handled, Brisk, Accepted, Extends;
    var (s1, outcome) := FinishLoad(s);
    FinishLoadKeeps(s, s.held, Waiting(s));
    AgentSends.FinishLoadSends(s);
    QueueEmptyWhenShut(s);
    SettleLoadKeeps(s);
    CoreAccepted(SettleLoad(s), SettleLoad(s).held, Waiting(SettleLoad(s)));
    if outcome.Published? {
      var s2 := ReleaseHeld(s1);
      AgentSends.ReleaseListingSends(s2, "released");
      ReleaseHandles(s1, Waiting(s));
      ListingExtends(s2, "released");
      forall id | id in s.held ensures Handled(SettleLoad(s), s.held[id], s.readings) {
        assert Handled(s2, s1.held[id], s1.readings);
        HandledStays(SettleLoad(s), s2, SettleLoad(s).approvals.uid, s.held[id], s.readings);
      }
    } else {
      StaysShut(s);
    }
  }

  lemma StaysShut(s: Agent)
    requires !s.gateOpen && !FinishLoad(s).1.Published?
    ensures !SettleLoad(s).gateOpen
  {
    hide CancelHeld, ReleaseListing, LoadInto;
    var s1 := FinishLoad(s).0;
    AgentSends.CancelHeldSends(s1, "load-failed");
    AgentSends.ReleaseListingSends(CancelHeld(s1, "load-failed"), "load-failed");
  }

  lemma ListingExtends(s: Agent, reason: string)
    ensures Extends(ReleaseListing(s, reason).log, s.log)
  {
    hide ReleaseListing;
    AgentTrace.ReleaseListingQuiet(s, reason);
    AddsExtends(ReleaseListing(s, reason).log, s.log, AgentTrace.Names(s.store.public));
  }

  // ---- the event that publishes it ----

  /** The event opens the gate that a load had shut. */
  ghost predicate Publishes(s: Agent, e: Event) {
    s.phase.Running? && s.handshake && !s.gateOpen && Step(s, e).gateOpen
  }

  /** When an event publishes the load they waited for, every held request has what is due
      to it: no key, no signature; approved ahead, the store's own answer without another
      prompt; otherwise a window's answer, or a new prompt for exactly what it asked. This
      holds while there are ids left and the release takes less than two minutes. */
  lemma ReleaseOutcome(s: Agent, e: Event)
    requires Inv(s) && Publishes(s, e)
    requires s.approvals.nextId + |s.held| <= 0xFFFF_FFFF_FFFF_FFFF
    requires s.approvals.nextGrantId + |s.held| <= 0xFFFF_FFFF_FFFF_FFFF
    requires Brisk(s.clock, s.readings, Step(s, e).readings)
    ensures forall id | id in s.held :: Handled(Step(s, e), s.held[id], s.readings)
  {
    hide Core, Observe, SettleLoad, Handled, Brisk, Step;
    QueueEmptyWhenShut(s);
    OnlyLoadsOpen(s, e);
    if e.FromFifo? {
      var s1 := s.(load := Some(s.load.value.(payload := Some(e.payload))));
      DeliveredKeeps(s, e.payload);
      LoadHandles(s1);
    } else {
      var s1 := Ended(Note(s, Told(e.control)));
      EndedKeeps(s, e.control.epoch);
      BriskLater(s.clock, s.readings, Step(s, e).readings);
      LoadHandles(s1);
      forall id | id in s.held ensures Handled(Step(s, e), s.held[id], s.readings) {
        assert Handled(Step(s, e), s1.held[id], s1.readings);
        HandledEarlier(Step(s, e), s.held[id], s.readings, s1.readings);
      }
    }
  }

  lemma BriskLater(clock: nat -> nat, lo: nat, hi: nat)
    requires Brisk(clock, lo, hi)
    ensures Brisk(clock, lo + 1, hi)
  {
  }

  lemma HandledEarlier(s: Agent, h: HeldSign, lo: nat, mid: nat)
    requires Handled(s, h, mid) && lo <= mid
    ensures Handled(s, h, lo)
  {
    hide KeyAnswer, AgentOutcomes.Loaded, Observe;
    if Asked(s, h, mid) {
      var r :| r in s.approvals.queue && AskedAs(s, h, r, mid);
      assert AskedAs(s, h, r, lo);
    }
  }

  /** Only the end of a load or its payload opens a shut gate. */
  lemma OnlyLoadsOpen(s: Agent, e: Event)
    requires Publishes(s, e)
    ensures s.load.Some?
    ensures || (e.FromFifo? && s.load.value.epoch == e.epoch
                && Step(s, e) == SettleLoad(s.(load := Some(s.load.value.(payload := Some(e.payload))))))
            || (e.FromPanel? && e.control.KeyLoadEnd? && e.control.ok
                && Step(s, e) == SettleLoad(Ended(Note(s, Told(e.control)))))
  {
    hide SettleLoad, Observe;
    match e
    case FromPanel(c) => OnlyEndsOpen(s, c);
    case FromClient(c) => ClientKeepsGate(s, c);
    case Tick(closed) => TickKeepsGate(s, closed);
    case PanelClosed => FinishKeepsGate(Note(s, Told(Shutdown)));
    case _ =>
  }

  lemma OnlyEndsOpen(s: Agent, c: Control)
    requires Publishes(s, FromPanel(c))
    ensures c.KeyLoadEnd? && c.ok && s.load.Some? && s.load.value.epoch == c.epoch
    ensures Step(s, FromPanel(c)) == SettleLoad(Ended(Note(s, Told(c))))
  {
    hide SettleLoad, Observe, ReleaseListing, CancelHeld, FailPending, SettleGranted, ApproveQueued, Lock, Logout,
         AuthorizedSignature, InvalidateAll;
    var s1 := Note(s, Told(c));
    match c
    case VaultLocked(epoch) => DrainKeepsGate(Voided(s1, Lock(s.store, epoch)), "locked");
    case VaultLoggedOut =>
      DrainKeepsGate(Voided(s1, Logout(s.store, SatAdd(s.store.tracker.epoch, 1))), "logged-out");
    case ApproveRequest(id, d) => ApproveKeepsGate(s1, id, d);
    case Deny(id) => DenyKeepsGate(s1, id);
    case UnlockCancelled(id) => DenyKeepsGate(s1, id);
    case Shutdown => FinishKeepsGate(s1);
    case KeyLoadBegin(_, _) => FailKeepsGate(s1.(gateOpen := false, approvals := InvalidateAll(s.approvals)));
    case KeyLoadEnd(epoch, ok) =>
      if !ok {
        CancelKeepsGate(s1.(load := None, store := Lock(s.store, epoch), gateOpen := false));
      }
    case _ =>
  }

  ghost function Voided(s: Agent, store: Store): Agent {
    s.(gateOpen := false, load := None, store := store, approvals := InvalidateAll(s.approvals))
  }

  lemma CancelKeepsGate(s: Agent)
    ensures ReleaseListing(CancelHeld(s, "load-failed"), "load-failed").gateOpen == s.gateOpen
  {
    hide ReleaseListing, CancelHeld;
    AgentSends.CancelHeldSends(s, "load-failed");
    AgentSends.ReleaseListingSends(CancelHeld(s, "load-failed"), "load-failed");
  }

  lemma FailKeepsGate(s: Agent)
    ensures FailPending(s).gateOpen == s.gateOpen
  {
    AgentSends.FailEachSends(s.(pending := map[]), s.pending, Ascending(s.pending.Keys));
  }

  lemma DenyKeepsGate(s: Agent, id: RequestId)
    ensures OnDeny(s, id).gateOpen == s.gateOpen
  {
    hide ReleaseListing, Disconnect;
    var s1 := s.(approvals := Disconnect(s.approvals, id));
    var s2 := if id in s1.pending then Reply(s1.(pending := s.pending - {id}), s.pending[id].chan, Failure) else s1;
    var s3 := if id in s2.held then Reply(s2.(held := s.held - {id}), s.held[id].chan, Failure) else s2;
    AgentSends.ReleaseListingSends(s3, "cancelled");
  }

  lemma ApproveKeepsGate(s: Agent, id: RequestId, d: GrantDuration)
    ensures OnApprove(s, id, d).gateOpen == s.gateOpen
  {
    hide SettleGranted, ApproveQueued, AuthorizedSignature;
    if id !in s.held && id in s.pending {
      var sign := s.pending[id];
      var s0 := s.(pending := s.pending - {id});
      ApproveFrame(s0, id, sign.chan, d);
      var (s1, a) := ApproveQueued(s0, id, sign.chan, d);
      SettleKeepsGate(Answer(s1, sign.chan, a, sign.message, sign.flags));
    }
  }

  lemma SettleKeepsGate(s: Agent)
    ensures SettleGranted(s).gateOpen == s.gateOpen
  {
    var (approvals, released) := ReleaseGranted(s.approvals, Now(s));
    hide ReleaseGranted, SettleEach;
    AgentSends.SettleEachSends(ReadClock(s).(approvals := approvals), released);
  }

  lemma ClientKeepsGate(s: Agent, c: Client)
    ensures HandleClient(s, c).gateOpen == s.gateOpen
  {
    hide SubmitSign, HoldSign, HandleListing, Authorize;
    var s1 := Note(s.(nextChan := s.nextChan + 1), Delivered(s.nextChan, c));
    ListingKeepsGate(s1, s.nextChan, c);
    if c.request.SignData? {
      HoldKeepsGate(s1, s.nextChan, c);
      SubmitKeepsGate(s1, s.nextChan, c.request.blob, c.request.message, c.request.flags, c.peer, Scope(c));
    }
  }

  lemma ListingKeepsGate(s: Agent, chan: Chan, c: Client)
    ensures HandleListing(s, chan, c).gateOpen == s.gateOpen
  {
    hide Reserve, ListKeys;
  }

  lemma HoldKeepsGate(s: Agent, chan: Chan, c: Client)
    requires c.request.SignData?
    ensures HoldSign(s, chan, c).gateOpen == s.gateOpen
  {
    hide FindPublic, Reserve;
  }

  lemma SubmitKeepsGate(s: Agent, chan: Chan, blob: Blob, message: seq<byte>, flags: nat, peer: Peer,
                        scope: SignScope)
    ensures SubmitSign(s, chan, blob, message, flags, peer, scope).gateOpen == s.gateOpen
  {
    hide Submit, FindPublic, AuthorizedSignature, Disconnect;
  }

  lemma FinishKeepsGate(s: Agent)
    ensures Finish(s).gateOpen == s.gateOpen
  {
    var s1 := s.(approvals := InvalidateAll(s.approvals), load := None);
    DrainKeepsGate(s1, "shutdown");
  }

  lemma DrainKeepsGate(s: Agent, reason: string)
    ensures ReleaseListing(CancelHeld(FailPending(s), reason), reason).gateOpen == s.gateOpen
  {
    hide CancelHeld, ReleaseListing, FailEach;
    AgentSends.FailEachSends(s.(pending := map[]), s.pending, Ascending(s.pending.Keys));
    var s1 := FailPending(s);
    AgentSends.CancelHeldSends(s1, reason);
    AgentSends.ReleaseListingSends(CancelHeld(s1, reason), reason);
  }

  lemma TickKeepsGate(s: Agent, closed: set<Chan>)
    requires s.phase.Running? && !s.gateOpen
    ensures !OnTick(s, closed).gateOpen
  {
    hide Step, OnTick;
    AgentOutcomes.TickIs(s, closed);
    AgentOutcomes.TickOutcome(s, closed);
  }
}
