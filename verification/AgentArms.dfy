/** Every arm of the loop keeps the invariant: submitting, approving, settling by a grant,
    releasing and cancelling held requests, draining on a lock, publishing a load. */
module AgentArms {
  import opened Base
  import opened KeyStoreModel
  import opened ApprovalModel
  import opened ObserverModel
  import opened AgentModel
  import opened AgentInvariant

  /** Everything but the tables being worked on. */
  predicate Same(s': Agent, s: Agent) {
    && s'.phase == s.phase && s'.handshake == s.handshake && s'.gateOpen == s.gateOpen
    && s'.unlockOnDemand == s.unlockOnDemand && s'.store == s.store && s'.listing == s.listing
    && s'.load == s.load && s'.held == s.held && s'.approvals.uid == s.approvals.uid
  }

  // ---- what a signature is made of ----

  lemma SignedWith(store: Store, a: Authorization, message: seq<byte>, flags: nat)
    requires ValidStore(store)
    requires AuthorizedSignature(store, a, message, flags).Signed?
    ensures var sig := AuthorizedSignature(store, a, message, flags).signature;
            && sig.key.blob == Some(a.blob) && sig.message == message && sig.flags == flags
            && Signable(sig.key, flags)
    ensures a.blob in Blobs(store) && Allows(store.tracker, a.epoch)
  {
    FindKeyExact(store, a.blob, 0);
  }

  /** The panel approved this request. */
  predicate ApprovedBy(o: Observer, chan: Chan) {
    chan in o.approved
  }

  /** A grant the agent holds answers this request now. */
  ghost predicate GrantedBy(s: Agent, blob: Blob, peer: Peer, scope: SignScope) {
    exists g :: g in s.approvals.grants && Unexpired(g, Observe(s.log).now)
                && GrantCovers(g, s.store.tracker.epoch, blob, peer, scope)
  }

  lemma Justify(s: Agent, h: map<RequestId, HeldSign>, f: set<Chan>, chan: Chan, blob: Blob, message: seq<byte>,
                flags: nat, peer: Peer, scope: SignScope)
    requires Core(s, h, f) && Live(s)
    requires Asks(Observe(s.log).book, chan, message, flags) && AsksFor(Observe(s.log).book, chan, blob, peer, scope)
    requires peer.uid == s.approvals.uid
    requires ApprovedBy(Observe(s.log), chan) || GrantedBy(s, blob, peer, scope)
    ensures var r := AuthorizedSignature(s.store, Authorization(s.store.tracker.epoch, blob), message, flags);
            !r.Listing? && (r.Signed? ==> Justified(Observe(s.log), s.approvals.uid, chan, r.signature))
  {
    var o := Observe(s.log);
    var r := AuthorizedSignature(s.store, Authorization(s.store.tracker.epoch, blob), message, flags);
    if r.Signed? {
      SignedWith(s.store, Authorization(s.store.tracker.epoch, blob), message, flags);
      if !ApprovedBy(o, chan) {
        var g :| g in s.approvals.grants && Unexpired(g, o.now)
                 && GrantCovers(g, s.store.tracker.epoch, blob, peer, scope);
        assert g.id in o.grants && Answers(o.grants[g.id], o.ring.epoch, o.book.requests[chan], o.now);
      }
    }
  }

  // ---- submitting ----

  /** An open request in no table, with everything a submission needs known about it. */
  ghost predicate Submittable(s: Agent, f: set<Chan>, chan: Chan, blob: Blob, message: seq<byte>, flags: nat,
                         peer: Peer, scope: SignScope) {
    && chan in f && Live(s) && peer.uid == s.approvals.uid
    && Asks(Observe(s.log).book, chan, message, flags)
    && AsksFor(Observe(s.log).book, chan, blob, peer, scope)
  }

  lemma CoveredNow(s: Agent, grants: seq<Grant>, blob: Blob, peer: Peer, scope: SignScope)
    requires Covered(grants, s.store.tracker.epoch, blob, peer, scope)
    requires forall g | g in grants :: g in s.approvals.grants && Unexpired(g, Observe(s.log).now)
    ensures GrantedBy(s, blob, peer, scope)
  {
    var i :| 0 <= i < |grants| && GrantCovers(grants[i], s.store.tracker.epoch, blob, peer, scope);
    assert grants[i] in grants;
  }

  /** The clock is read and what has expired is dropped. */
  ghost function Expired(s: Agent): Agent {
    ReadClock(s).(approvals := Expire(s.approvals, Now(s)))
  }

  lemma ExpiredKeeps(s: Agent, h: map<RequestId, HeldSign>, f: set<Chan>)
    requires Core(s, h, f)
    ensures Core(Expired(s), h, f)
    ensures forall g | g in Expired(s).approvals.grants :: Unexpired(g, Observe(Expired(s).log).now)
    ensures |Expired(s).approvals.queue| <= |s.approvals.queue|
  {
    ReadClockKeeps(s, h, f);
    ExpireShrinks(s.approvals, Now(s));
    ShrinkKeeps(ReadClock(s), h, f, Expire(s.approvals, Now(s)));
  }

  lemma KeyIsListed(store: Store, blob: Blob)
    requires ValidStore(store) && Authorize(store, blob).Some?
    ensures FindPublic(store.public, blob).Some?
  {
    FindKeyExact(store, blob, 0);
  }

  function NewRequest(m: Manager, epoch: nat, blob: Blob, peer: Peer, scope: SignScope, now: nat): Request {
    Request(m.nextId, epoch, blob, peer, scope, SatAdd(now, REQUEST_LIFETIME_MS))
  }

  predicate NoRoom(m: Manager) {
    |m.queue| >= MAX_PENDING || m.nextId >= U64_MAX
  }

  /** What a submission by the expected user comes to. */
  lemma SubmitCases(m: Manager, epoch: nat, blob: Blob, peer: Peer, scope: SignScope, now: nat)
    requires peer.uid == m.uid
    ensures var m' := Expire(m, now);
            Submit(m, epoch, blob, peer, scope, now) ==
            if Covered(m'.grants, epoch, blob, peer, scope) then (m', Granted(Authorization(epoch, blob)))
            else if NoRoom(m') then (m', Rejected)
            else (m'.(nextId := m'.nextId + 1, queue := m'.queue + [NewRequest(m', epoch, blob, peer, scope, now)]),
                  Queued(m'.nextId))
  {
  }

  /** Submitting is: expire, then a grant's answer, a refusal, or a prompt. */
  lemma SubmitShape(s: Agent, chan: Chan, blob: Blob, message: seq<byte>, flags: nat, peer: Peer, scope: SignScope)
    requires peer.uid == s.approvals.uid && FindPublic(s.store.public, blob).Some?
    ensures var s1 := Expired(s);
            var epoch := s.store.tracker.epoch;
            SubmitSign(s, chan, blob, message, flags, peer, scope) ==
            if Covered(s1.approvals.grants, epoch, blob, peer, scope) then
              Reply(s1, chan, AuthorizedSignature(s.store, Authorization(epoch, blob), message, flags))
            else if NoRoom(s1.approvals) then Reply(s1, chan, Failure)
            else Enqueue(s1, NewRequest(s1.approvals, epoch, blob, peer, scope, Now(s)), chan, message, flags,
                         FindPublic(s.store.public, blob).value)
  {
    SubmitCases(s.approvals, s.store.tracker.epoch, blob, peer, scope, Now(s));
  }

  lemma AnswerByGrant(s: Agent, h: map<RequestId, HeldSign>, f: set<Chan>, chan: Chan, blob: Blob,
                      message: seq<byte>, flags: nat, peer: Peer, scope: SignScope)
    requires Core(s, h, f) && Submittable(s, f, chan, blob, message, flags, peer, scope)
    requires Covered(s.approvals.grants, s.store.tracker.epoch, blob, peer, scope)
    requires forall g | g in s.approvals.grants :: Unexpired(g, Observe(s.log).now)
    ensures Core(Reply(s, chan,
                       AuthorizedSignature(s.store, Authorization(s.store.tracker.epoch, blob), message, flags)),
                 h, f - {chan})
  {
    CoveredNow(s, s.approvals.grants, blob, peer, scope);
    Justify(s, h, f, chan, blob, message, flags, peer, scope);
    ReplyFloating(s, h, f, chan,
                  AuthorizedSignature(s.store, Authorization(s.store.tracker.epoch, blob), message, flags));
  }

  lemma SubmitKeeps(s: Agent, h: map<RequestId, HeldSign>, f: set<Chan>, chan: Chan, blob: Blob,
                    message: seq<byte>, flags: nat, peer: Peer, scope: SignScope)
    requires Core(s, h, f) && Submittable(s, f, chan, blob, message, flags, peer, scope)
    requires Authorize(s.store, blob).Some?
    ensures Core(SubmitSign(s, chan, blob, message, flags, peer, scope), h, f - {chan})
  {
    var s1 := Expired(s);
    ExpiredKeeps(s, h, f);
    KeyIsListed(s.store, blob);
    SubmitShape(s, chan, blob, message, flags, peer, scope);
    if Covered(s1.approvals.grants, s.store.tracker.epoch, blob, peer, scope) {
      AnswerByGrant(s1, h, f, chan, blob, message, flags, peer, scope);
    } else if NoRoom(s1.approvals) {
      ReplyFloating(s1, h, f, chan, Failure);
    } else {
      EnqueueKeeps(s1, h, f, NewRequest(s1.approvals, s.store.tracker.epoch, blob, peer, scope, Now(s)),
                   chan, message, flags, FindPublic(s.store.public, blob).value);
    }
  }

  // ---- consuming an approval ----

  /** The request is out of the queue: open the grant the approval asks for, if any. */
  ghost function Consume(s: Agent, chan: Chan, r: Request, d: GrantDuration): (Agent, Option<Authorization>) {
    var m := s.approvals;
    if !OpensGrant(d, r.scope) then (s, Some(Authorization(r.epoch, r.blob)))
    else if m.nextGrantId >= U64_MAX then (s, None)
    else
      var g := Grant(m.nextGrantId, r.blob, r.peer, r.scope.kind, r.epoch, Expiry(d, Observe(s.log).now));
      (Note(s.(approvals := m.(nextGrantId := m.nextGrantId + 1, grants := m.grants + [g])), Opened(g, chan)),
       Some(Authorization(r.epoch, r.blob)))
  }

  lemma ConsumeKeeps(s: Agent, h: map<RequestId, HeldSign>, f: set<Chan>, chan: Chan, r: Request, d: GrantDuration)
    requires Core(s, h, f) && Live(s) && AsksFor(Observe(s.log).book, chan, r.blob, r.peer, r.scope)
    requires chan in Observe(s.log).approved && Observe(s.log).approved[chan] == d
    requires r.epoch == s.store.tracker.epoch
    ensures Core(Consume(s, chan, r, d).0, h, f)
  {
    var o := Observe(s.log);
    if OpensGrant(d, r.scope) && s.approvals.nextGrantId < U64_MAX {
      var s' := Consume(s, chan, r, d).0;
      var g := s'.log.last.grant;
      assert Legal(o, s.approvals.uid, Opened(g, chan));
      assert Observe(s'.log) == o.(grants := o.grants[g.id := g]);
      assert forall x | x in s.approvals.grants :: x.id in o.grants && x.id < s.approvals.nextGrantId;
    }
  }

  /** What consuming an approval gives, and leaves alone. */
  lemma ConsumeFrame(s: Agent, chan: Chan, r: Request, d: GrantDuration)
    ensures var (s', a) := Consume(s, chan, r, d);
            && s' == s.(approvals := s'.approvals, log := s'.log) && s'.approvals.uid == s.approvals.uid
            && s'.approvals.queue == s.approvals.queue
            && Observe(s'.log).book == Observe(s.log).book && Observe(s'.log).approved == Observe(s.log).approved
            && a == if OpensGrant(d, r.scope) && s.approvals.nextGrantId >= U64_MAX then None
                    else Some(Authorization(r.epoch, r.blob))
  {
  }

  lemma AnswerApproved(s: Agent, h: map<RequestId, HeldSign>, f: set<Chan>, chan: Chan, r: Request,
                       d: GrantDuration, message: seq<byte>, flags: nat)
    requires Core(s, h, f) && Submittable(s, f, chan, r.blob, message, flags, r.peer, r.scope)
    requires chan in Observe(s.log).approved && Observe(s.log).approved[chan] == d
    requires r.epoch == s.store.tracker.epoch
    ensures var (s', a) := Consume(s, chan, r, d);
            Core(Answer(s', chan, a, message, flags), h, f - {chan})
  {
    var (s', a) := Consume(s, chan, r, d);
    ConsumeKeeps(s, h, f, chan, r, d);
    ConsumeFrame(s, chan, r, d);
    hide Consume, Core;
    if a.Some? {
      Justify(s', h, f, chan, r.blob, message, flags, r.peer, r.scope);
      ReplyFloating(s', h, f, chan, AuthorizedSignature(s.store, a.value, message, flags));
    } else {
      ReplyFloating(s', h, f, chan, Failure);
    }
  }

  function Removed(queue: seq<Request>, at: nat): seq<Request>
    requires at < |queue|
  {
    queue[..at] + queue[at + 1..]
  }

  lemma RemovedShrinks(m: Manager, at: nat)
    requires at < |m.queue| && DistinctIds(m.queue)
    ensures Shrunk(m.(queue := Removed(m.queue, at)), m) && DistinctIds(Removed(m.queue, at))
    ensures forall r | r in Removed(m.queue, at) :: r.id != m.queue[at].id
  {
    var q := Removed(m.queue, at);
    assert forall i | 0 <= i < |q| :: q[i] == m.queue[if i < at then i else i + 1];
  }

  /** Approving is: expire, take the request out, consume the approval. */
  lemma ApproveShape(s: Agent, id: RequestId, chan: Chan, d: GrantDuration)
    ensures var s1 := Expired(s);
            var q := s1.approvals.queue;
            var at := Position(q, id);
            ApproveQueued(s, id, chan, d) ==
            if at == |q| then (s1, None)
            else Consume(s1.(approvals := s1.approvals.(queue := Removed(q, at))), chan, q[at], d)
  {
  }

  /** Take a queued request out of both tables. */
  ghost function TakenOut(s: Agent, at: nat): Agent
    requires at < |s.approvals.queue|
  {
    s.(approvals := s.approvals.(queue := Removed(s.approvals.queue, at)),
       pending := s.pending - {s.approvals.queue[at].id})
  }

  lemma TakeOutKeeps(s: Agent, h: map<RequestId, HeldSign>, f: set<Chan>, at: nat)
    requires Core(s, h, f) && at < |s.approvals.queue|
    ensures var r := s.approvals.queue[at];
            && r.id in s.pending && r.epoch == s.store.tracker.epoch
            && var sign := s.pending[r.id];
               && Core(TakenOut(s, at), h, f + {sign.chan})
               && Submittable(TakenOut(s, at), f + {sign.chan}, sign.chan, r.blob, sign.message, sign.flags, r.peer,
                              r.scope)
  {
    var r := s.approvals.queue[at];
    assert r in s.approvals.queue;
    assert QueuedFor(r, s.pending, s.store.tracker.epoch, Observe(s.log).book);
    RemovedShrinks(s.approvals, at);
    var m := s.approvals.(queue := Removed(s.approvals.queue, at));
    ShrinkKeeps(s, h, f, m);
    FloatPending(s.(approvals := m), h, f, r.id);
  }

  lemma ApproveUnqueued(s: Agent, h: map<RequestId, HeldSign>, f: set<Chan>, id: RequestId)
    requires Core(s, h, f) && id in s.pending
    requires Position(s.approvals.queue, id) == |s.approvals.queue|
    ensures Core(Reply(s.(pending := s.pending - {id}), s.pending[id].chan, Failure), h, f)
  {
    var chan := s.pending[id].chan;
    assert chan !in f;
    hide Core, Position;
    forall r | r in s.approvals.queue ensures r.id != id {
      var i :| 0 <= i < |s.approvals.queue| && s.approvals.queue[i] == r;
    }
    FloatPending(s, h, f, id);
    ReplyFloating(s.(pending := s.pending - {id}), h, f + {chan}, chan, Failure);
    assert f + {chan} - {chan} == f;
  }

  lemma ApproveFound(s: Agent, h: map<RequestId, HeldSign>, f: set<Chan>, at: nat, d: GrantDuration)
    requires Core(s, h, f) && at < |s.approvals.queue| && s.approvals.queue[at].id in s.pending
    requires var chan := s.pending[s.approvals.queue[at].id].chan;
             chan in Observe(s.log).approved && Observe(s.log).approved[chan] == d
    ensures var r := s.approvals.queue[at];
            var sign := s.pending[r.id];
            var (s', a) := Consume(TakenOut(s, at), sign.chan, r, d);
            Core(Answer(s', sign.chan, a, sign.message, sign.flags), h, f)
  {
    var r := s.approvals.queue[at];
    var sign := s.pending[r.id];
    TakeOutKeeps(s, h, f, at);
    AnswerApproved(TakenOut(s, at), h, f + {sign.chan}, sign.chan, r, d, sign.message, sign.flags);
    assert sign.chan !in f;
    assert f + {sign.chan} - {sign.chan} == f;
  }

  /** For a pending request, approving works on the expired state with that entry gone. */
  lemma ApprovePendingShape(s: Agent, id: RequestId, chan: Chan, d: GrantDuration)
    requires id in s.pending
    ensures var s1 := Expired(s);
            var at := Position(s1.approvals.queue, id);
            ApproveQueued(s.(pending := s.pending - {id}), id, chan, d) ==
            if at == |s1.approvals.queue| then (s1.(pending := s.pending - {id}), None)
            else Consume(TakenOut(s1, at), chan, s1.approvals.queue[at], d)
  {
    ApproveShape(s.(pending := s.pending - {id}), id, chan, d);
    var s1 := Expired(s);
    assert Expired(s.(pending := s.pending - {id})) == s1.(pending := s.pending - {id});
  }

  /** The panel approved a pending request: it leaves both tables and is answered. */
  lemma ApprovePendingKeeps(s: Agent, h: map<RequestId, HeldSign>, f: set<Chan>, id: RequestId, d: GrantDuration)
    requires Core(s, h, f) && id in s.pending
    requires s.pending[id].chan in Observe(s.log).approved && Observe(s.log).approved[s.pending[id].chan] == d
    ensures var sign := s.pending[id];
            var (s', a) := ApproveQueued(s.(pending := s.pending - {id}), id, sign.chan, d);
            Core(Answer(s', sign.chan, a, sign.message, sign.flags), h, f)
  {
    hide ApproveQueued, Consume;
    ApprovePendingShape(s, id, s.pending[id].chan, d);
    var s1 := Expired(s);
    ExpiredKeeps(s, h, f);
    assert Observe(s1.log).approved == Observe(s.log).approved;
    var at := Position(s1.approvals.queue, id);
    if at == |s1.approvals.queue| {
      ApproveUnqueued(s1, h, f, id);
    } else {
      ApproveFound(s1, h, f, at, d);
    }
  }

  // ---- settling queued requests by a grant ----

  /** Requests just taken out of the queue, each covered by a live grant and still pending. */
  ghost predicate Settleable(s: Agent, released: seq<Request>) {
    && DistinctIds(released)
    && (forall r | r in released ::
          && QueuedFor(r, s.pending, s.store.tracker.epoch, Observe(s.log).book)
          && RequestCovered(s.approvals.grants, r)
          && forall q | q in s.approvals.queue :: q.id != r.id)
    && (forall g | g in s.approvals.grants :: Unexpired(g, Observe(s.log).now))
  }

  /** What settling leaves alone. */
  ghost predicate SettleFrame(s': Agent, s: Agent, released: seq<Request>) {
    && Same(s', s) && s'.approvals == s.approvals
    && Observe(s'.log).book.requests == Observe(s.log).book.requests
    && Observe(s'.log).now == Observe(s.log).now
    && forall id | id in s.pending && (forall r | r in released :: r.id != id) ::
         id in s'.pending && s'.pending[id] == s.pending[id]
  }

  lemma SettleOneKeeps(s: Agent, h: map<RequestId, HeldSign>, f: set<Chan>, r: Request)
    requires Core(s, h, f) && Settleable(s, [r])
    ensures Core(SettleOne(s, r), h, f)
  {
    assert r in [r];
    var sign := s.pending[r.id];
    var f' := f + {sign.chan};
    FloatPending(s, h, f, r.id);
    var s1 := s.(pending := s.pending - {r.id});
    AnswerByGrant(s1, h, f', sign.chan, r.blob, sign.message, sign.flags, r.peer, r.scope);
    assert f' - {sign.chan} == f;
    EmitNeutral(Reply(s1, sign.chan,
                      AuthorizedSignature(s.store, Authorization(r.epoch, r.blob), sign.message, sign.flags)),
                h, f, RequestCancelled(r.id, "granted"));
  }

  lemma {:induction false} SettleFramed(s: Agent, released: seq<Request>)
    ensures SettleFrame(SettleEach(s, released), s, released)
  {
    if released != [] {
      hide SettleOne;
      var front := released[..|released| - 1];
      SettleFramed(s, front);
      SettleOneFramed(SettleEach(s, front), released[|released| - 1]);
      assert released[|released| - 1] in released;
      assert forall r | r in front :: r in released;
    }
  }

  lemma SettleOneFramed(s: Agent, r: Request)
    ensures var s' := SettleOne(s, r);
            && Same(s', s) && s'.approvals == s.approvals
            && Observe(s'.log).book.requests == Observe(s.log).book.requests
            && Observe(s'.log).now == Observe(s.log).now
            && forall id | id in s.pending && r.id != id :: id in s'.pending && s'.pending[id] == s.pending[id]
  {
  }

  /** The last of the requests is as settleable after the others as it was before. */
  lemma StillSettleable(s: Agent, s': Agent, h: map<RequestId, HeldSign>, f: set<Chan>, released: seq<Request>)
    requires released != [] && Settleable(s, released)
    requires Core(s', h, f) && SettleFrame(s', s, released[..|released| - 1])
    ensures Settleable(s', [released[|released| - 1]])
  {
    var r := released[|released| - 1];
    assert r in released;
    var front := released[..|released| - 1];
    forall x | x in front ensures x.id != r.id {
      var i :| 0 <= i < |front| && front[i] == x;
      assert released[i] == x;
    }
    assert r.id in s'.pending && s'.pending[r.id] == s.pending[r.id];
    assert Asks(Observe(s'.log).book, s'.pending[r.id].chan, s'.pending[r.id].message, s'.pending[r.id].flags);
  }

  lemma SettleableFront(s: Agent, released: seq<Request>)
    requires released != [] && Settleable(s, released)
    ensures Settleable(s, released[..|released| - 1])
  {
    assert forall r | r in released[..|released| - 1] :: r in released;
  }

  lemma {:induction false} SettleEachKeeps(s: Agent, h: map<RequestId, HeldSign>, f: set<Chan>, released: seq<Request>)
    requires Core(s, h, f) && Settleable(s, released)
    ensures Core(SettleEach(s, released), h, f)
  {
    if released != [] {
      var front := released[..|released| - 1];
      SettleableFront(s, released);
      hide Settleable, Core, SettleOne;
      SettleEachKeeps(s, h, f, front);
      SettleFramed(s, front);
      var s1 := SettleEach(s, front);
      StillSettleable(s, s1, h, f, released);
      SettleOneKeeps(s1, h, f, released[|released| - 1]);
    }
  }

  lemma {:induction false} CoveredAndUncovered(queue: seq<Request>, grants: seq<Grant>)
    requires DistinctIds(queue)
    ensures DistinctIds(CoveredRequests(queue, grants)) && DistinctIds(Uncovered(queue, grants))
    ensures forall r, q | r in CoveredRequests(queue, grants) && q in Uncovered(queue, grants) :: r.id != q.id
  {
    KeepDistinctIds(queue, (r: Request) => RequestCovered(grants, r));
    KeepDistinctIds(queue, (r: Request) => !RequestCovered(grants, r));
    forall r, q | r in CoveredRequests(queue, grants) && q in Uncovered(queue, grants) ensures r.id != q.id {
      var i :| 0 <= i < |queue| && queue[i] == r;
      var j :| 0 <= j < |queue| && queue[j] == q;
      assert i != j;
      assert queue[if i < j then i else j].id != queue[if i < j then j else i].id;
    }
  }

  lemma SettleGrantedKeeps(s: Agent, h: map<RequestId, HeldSign>, f: set<Chan>)
    requires Core(s, h, f)
    ensures Core(SettleGranted(s), h, f) && Same(SettleGranted(s), s)
    ensures |SettleGranted(s).approvals.queue| <= |s.approvals.queue|
  {
    var s1 := Expired(s);
    ExpiredKeeps(s, h, f);
    var m := s1.approvals;
    var released := CoveredRequests(m.queue, m.grants);
    var s2 := s1.(approvals := m.(queue := Uncovered(m.queue, m.grants)));
    CoveredAndUncovered(m.queue, m.grants);
    ShrinkKeeps(s1, h, f, s2.approvals);
    assert Settleable(s2, released) by {
      assert forall r | r in released :: QueuedFor(r, s1.pending, s.store.tracker.epoch, Observe(s1.log).book);
    }
    SettleEachKeeps(s2, h, f, released);
    SettleFramed(s2, released);
    assert SettleGranted(s) == SettleEach(s2, released);
  }
}
