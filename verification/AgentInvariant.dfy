/** What holds between the agent's tables and the log, and the small moves every arm of
    the loop is made of. */
module AgentInvariant {
  import opened Base
  import opened KeyStoreModel
  import opened ApprovalModel
  import opened ObserverModel
  import opened AgentModel

  // ---- the invariant ----

  /** `chan` is an open request to sign exactly this. */
  predicate Asks(b: Book, chan: Chan, message: seq<byte>, flags: nat) {
    && OpenSign(b, chan)
    && b.requests[chan].request.message == message
    && b.requests[chan].request.flags == flags
  }

  /** ... with this key, by this peer, in this scope. */
  predicate AsksFor(b: Book, chan: Chan, blob: Blob, peer: Peer, scope: SignScope) {
    && OpenSign(b, chan)
    && b.requests[chan].request.blob == blob
    && b.requests[chan].peer == peer
    && Scope(b.requests[chan]) == scope
  }

  /** The latest prompt of `chan`. */
  predicate Prompted(b: Book, id: RequestId, chan: Chan) {
    && id in b.prompts && b.prompts[id] == chan
    && chan in b.home && b.home[chan] == id
  }

  ghost predicate PendingOk(pending: map<RequestId, PendingSign>, f: set<Chan>, uid: nat, b: Book) {
    forall id | id in pending ::
      && Prompted(b, id, pending[id].chan)
      && Asks(b, pending[id].chan, pending[id].message, pending[id].flags)
      && b.requests[pending[id].chan].peer.uid == uid
      && pending[id].chan !in f
  }

  ghost predicate QueueOk(queue: seq<Request>, pending: map<RequestId, PendingSign>, epoch: nat, b: Book) {
    && (forall r | r in queue :: QueuedFor(r, pending, epoch, b))
    && DistinctIds(queue)
  }

  ghost predicate DistinctIds(queue: seq<Request>) {
    forall i, j | 0 <= i < j < |queue| :: queue[i].id != queue[j].id
  }

  /** The queued entry and the pending entry under its id describe the same request. */
  predicate QueuedFor(r: Request, pending: map<RequestId, PendingSign>, epoch: nat, b: Book) {
    && r.id in pending
    && AsksFor(b, pending[r.id].chan, r.blob, r.peer, r.scope)
    && r.epoch == epoch
  }

  ghost predicate HeldOk(h: map<RequestId, HeldSign>, pending: map<RequestId, PendingSign>, f: set<Chan>,
                         uid: nat, b: Book) {
    forall id | id in h ::
      && id !in pending
      && Prompted(b, id, h[id].chan)
      && Asks(b, h[id].chan, h[id].message, h[id].flags)
      && AsksFor(b, h[id].chan, h[id].blob, h[id].peer, h[id].scope)
      && h[id].peer.uid == uid
      && h[id].chan !in f
  }

  /** What the panel approved ahead of the load is what the observer saw approved. */
  ghost predicate ApprovedOk(h: map<RequestId, HeldSign>, approved: map<Chan, GrantDuration>) {
    forall id | id in h :: h[id].approved.Some? ==>
      h[id].chan in approved && approved[h[id].chan] == h[id].approved.value
  }

  /** The request stands in one of the two tables under the id of its latest prompt. */
  predicate Placed(c: Chan, pending: map<RequestId, PendingSign>, h: map<RequestId, HeldSign>, b: Book) {
    && c in b.home
    && ((b.home[c] in pending && pending[b.home[c]].chan == c) || (b.home[c] in h && h[b.home[c]].chan == c))
  }

  /** Nothing is lost: every unanswered request is in a table or in `f`. */
  ghost predicate HomesOk(pending: map<RequestId, PendingSign>, h: map<RequestId, HeldSign>, f: set<Chan>, b: Book) {
    && (forall c | c in f :: Open(b, c))
    && (forall c | c in b.requests :: c in b.answered || c in f || Placed(c, pending, h, b))
  }

  ghost predicate GrantsOk(grants: seq<Grant>, nextGrantId: GrantId, epoch: nat, seen: map<GrantId, Grant>) {
    && (forall g | g in grants :: g.id in seen && seen[g.id] == g && g.epoch == epoch)
    && (forall g | g in seen :: g < nextGrantId)
  }

  ghost predicate IdsOk(nextId: RequestId, nextChan: Chan, listing: Option<HeldListing>, b: Book) {
    && (forall id | id in b.prompts :: id < nextId)
    && (forall c | c in b.requests :: c < nextChan)
    && (forall c | c in b.answered :: c in b.requests)
    && (listing.Some? ==> listing.value.id < nextId && listing.value.id !in b.prompts)
    && (listing.Some? ==> ListingOk(listing.value.waiting, b))
  }

  /** The clients waiting for a listing asked for one, and each waits once. */
  ghost predicate ListingOk(waiting: seq<Chan>, b: Book) {
    && Distinct(waiting)
    && forall c | c in waiting :: c in b.requests && b.requests[c].request.Identities?
  }

  /** The gate is open over a live set of keys. */
  predicate Live(s: Agent) {
    s.gateOpen && s.store.tracker.state == Unlocked
  }

  ghost predicate KeysOk(s: Agent, r: Ring) {
    && ValidStore(s.store)
    && r.announced == {}
    && (Live(s) ==> r.unlocked && r.epoch == s.store.tracker.epoch && r.keys == Blobs(s.store))
    && (!Live(s) ==> s.approvals.queue == [] && s.approvals.grants == [] && s.pending == map[])
  }

  /** `h` are the requests held (or being released), `f` those in neither table yet. */
  ghost predicate Core(s: Agent, h: map<RequestId, HeldSign>, f: set<Chan>) {
    var o := Observe(s.log);
    && Accepted(s.log, s.approvals.uid)
    && IdsOk(s.approvals.nextId, s.nextChan, s.listing, o.book)
    && PendingOk(s.pending, f, s.approvals.uid, o.book)
    && QueueOk(s.approvals.queue, s.pending, s.store.tracker.epoch, o.book)
    && HeldOk(h, s.pending, f, s.approvals.uid, o.book)
    && ApprovedOk(h, o.approved)
    && HomesOk(s.pending, h, f, o.book)
    && GrantsOk(s.approvals.grants, s.approvals.nextGrantId, s.store.tracker.epoch, o.grants)
    && KeysOk(s, o.ring)
  }

  lemma CoreStore(s: Agent, h: map<RequestId, HeldSign>, f: set<Chan>)
    requires Core(s, h, f)
    ensures ValidStore(s.store)
  {
  }

  /** The invariant reads only these parts of the state. */
  lemma CoreDependsOn(s: Agent, s': Agent, h: map<RequestId, HeldSign>, f: set<Chan>)
    requires Core(s, h, f)
    requires s'.log == s.log && s'.approvals == s.approvals && s'.pending == s.pending && s'.store == s.store
    requires s'.gateOpen == s.gateOpen && s'.listing == s.listing && s'.nextChan == s.nextChan
    ensures Core(s', h, f)
  {
    hide QueueOk, HomesOk, GrantsOk, IdsOk, PendingOk, HeldOk, ApprovedOk, ValidStore;
  }

  // ---- moves ----

  lemma AnswerKeepsTables(pending: map<RequestId, PendingSign>, queue: seq<Request>, f: set<Chan>, uid: nat,
                          epoch: nat, b: Book, chan: Chan, r: Response)
    requires PendingOk(pending, f, uid, b) && QueueOk(queue, pending, epoch, b) && chan in f
    ensures PendingOk(pending, f - {chan}, uid, Answered(b, chan, r))
    ensures QueueOk(queue, pending, epoch, Answered(b, chan, r))
  {
  }

  lemma AnswerKeepsHeld(h: map<RequestId, HeldSign>, pending: map<RequestId, PendingSign>, f: set<Chan>, uid: nat,
                        b: Book, chan: Chan, r: Response)
    requires HeldOk(h, pending, f, uid, b) && chan in f
    ensures HeldOk(h, pending, f - {chan}, uid, Answered(b, chan, r))
  {
  }

  lemma AnswerKeepsHomes(pending: map<RequestId, PendingSign>, h: map<RequestId, HeldSign>, f: set<Chan>,
                         b: Book, chan: Chan, r: Response)
    requires HomesOk(pending, h, f, b)
    ensures HomesOk(pending, h, f - {chan}, Answered(b, chan, r))
  {
    var b' := Answered(b, chan, r);
    forall c | c in b'.requests ensures c in b'.answered || c in f - {chan} || Placed(c, pending, h, b') {
      assert c in b.answered || c in f || Placed(c, pending, h, b);
    }
  }

  /** Answer a request that stands in no table. */
  lemma ReplyFloating(s: Agent, h: map<RequestId, HeldSign>, f: set<Chan>, chan: Chan, r: Response)
    requires Core(s, h, f) && chan in f
    requires r.Signed? ==> Justified(Observe(s.log), s.approvals.uid, chan, r.signature)
    requires r.Listing? ==> Observe(s.log).book.requests[chan].request.Identities?
    ensures Core(Reply(s, chan, r), h, f - {chan})
  {
    var b := Observe(s.log).book;
    AnswerKeepsTables(s.pending, s.approvals.queue, f, s.approvals.uid, s.store.tracker.epoch, b, chan, r);
    AnswerKeepsHeld(h, s.pending, f, s.approvals.uid, b, chan, r);
    AnswerKeepsHomes(s.pending, h, f, b, chan, r);
  }

  lemma FloatKeepsTables(pending: map<RequestId, PendingSign>, queue: seq<Request>, f: set<Chan>, uid: nat,
                         epoch: nat, b: Book, id: RequestId)
    requires PendingOk(pending, f, uid, b) && QueueOk(queue, pending, epoch, b) && id in pending
    requires forall r | r in queue :: r.id != id
    ensures PendingOk(pending - {id}, f + {pending[id].chan}, uid, b)
    ensures QueueOk(queue, pending - {id}, epoch, b)
  {
    assert forall r | r in queue :: QueuedFor(r, pending, epoch, b);
  }

  lemma FloatKeepsHomes(pending: map<RequestId, PendingSign>, h: map<RequestId, HeldSign>, f: set<Chan>,
                        uid: nat, b: Book, id: RequestId)
    requires PendingOk(pending, f, uid, b) && HeldOk(h, pending, f, uid, b) && HomesOk(pending, h, f, b)
    requires id in pending
    ensures HeldOk(h, pending - {id}, f + {pending[id].chan}, uid, b)
    ensures HomesOk(pending - {id}, h, f + {pending[id].chan}, b)
  {
    var f' := f + {pending[id].chan};
    forall c | c in b.requests ensures c in b.answered || c in f' || Placed(c, pending - {id}, h, b) {
      assert c in b.answered || c in f || Placed(c, pending, h, b);
    }
    assert forall k | k in h :: Prompted(b, k, h[k].chan);
  }

  /** Take a request no longer queued out of the pending table. */
  lemma FloatPending(s: Agent, h: map<RequestId, HeldSign>, f: set<Chan>, id: RequestId)
    requires Core(s, h, f) && id in s.pending
    requires forall r | r in s.approvals.queue :: r.id != id
    ensures Core(s.(pending := s.pending - {id}), h, f + {s.pending[id].chan})
  {
    var b := Observe(s.log).book;
    FloatKeepsTables(s.pending, s.approvals.queue, f, s.approvals.uid, s.store.tracker.epoch, b, id);
    FloatKeepsHomes(s.pending, h, f, s.approvals.uid, b, id);
  }

  lemma FloatHeldHomes(pending: map<RequestId, PendingSign>, h: map<RequestId, HeldSign>, f: set<Chan>,
                       uid: nat, b: Book, id: RequestId)
    requires PendingOk(pending, f, uid, b) && HeldOk(h, pending, f, uid, b) && HomesOk(pending, h, f, b)
    requires id in h
    ensures PendingOk(pending, f + {h[id].chan}, uid, b)
    ensures HeldOk(h - {id}, pending, f + {h[id].chan}, uid, b)
    ensures HomesOk(pending, h - {id}, f + {h[id].chan}, b)
  {
    var f' := f + {h[id].chan};
    forall c | c in b.requests ensures c in b.answered || c in f' || Placed(c, pending, h - {id}, b) {
      assert c in b.answered || c in f || Placed(c, pending, h, b);
    }
    assert forall k | k in pending :: Prompted(b, k, pending[k].chan);
    assert forall k | k in h :: Prompted(b, k, h[k].chan);
  }

  /** Take a request out of the held ones. */
  lemma FloatHeld(s: Agent, h: map<RequestId, HeldSign>, f: set<Chan>, id: RequestId)
    requires Core(s, h, f) && id in h
    ensures Core(s, h - {id}, f + {h[id].chan})
  {
    FloatHeldHomes(s.pending, h, f, s.approvals.uid, Observe(s.log).book, id);
  }

  /** A message that tells an observer nothing about requests, keys or grants. */
  predicate Neutral(out: Output) {
    out.Ready? || out.LockedAck? || out.RequestCancelled? || out.GrantsChanged?
  }

  lemma EmitNeutral(s: Agent, h: map<RequestId, HeldSign>, f: set<Chan>, out: Output)
    requires Core(s, h, f) && Neutral(out)
    ensures Core(Emit(s, out), h, f)
    ensures Observe(Emit(s, out).log) == Observe(s.log)
  {
  }

  lemma ReadClockKeeps(s: Agent, h: map<RequestId, HeldSign>, f: set<Chan>)
    requires Core(s, h, f)
    ensures Core(ReadClock(s), h, f)
  {
  }

  // ---- the approval queue ----

  lemma {:induction false} KeepDistinctIds(queue: seq<Request>, p: Request -> bool)
    requires DistinctIds(queue)
    ensures DistinctIds(Keep(queue, p))
  {
    if queue != [] {
      var front := queue[..|queue| - 1];
      KeepDistinctIds(front, p);
      forall r | r in Keep(front, p) ensures r.id != queue[|queue| - 1].id {
        var i :| 0 <= i < |front| && front[i] == r;
        assert queue[i] == r;
      }
    }
  }

  /** The manager may drop requests and grants at any time. */
  predicate Shrunk(m': Manager, m: Manager) {
    m'.uid == m.uid && m'.nextId == m.nextId && m'.nextGrantId == m.nextGrantId && Within(m', m)
  }

  lemma ShrinkKeeps(s: Agent, h: map<RequestId, HeldSign>, f: set<Chan>, m: Manager)
    requires Core(s, h, f) && Shrunk(m, s.approvals) && DistinctIds(m.queue)
    ensures Core(s.(approvals := m), h, f)
  {
    if m.queue != [] { assert m.queue[0] in s.approvals.queue; }
    if m.grants != [] { assert m.grants[0] in s.approvals.grants; }
  }

  lemma ExpireShrinks(m: Manager, now: nat)
    requires DistinctIds(m.queue)
    ensures Shrunk(Expire(m, now), m) && DistinctIds(Expire(m, now).queue)
    ensures forall g | g in Expire(m, now).grants :: Unexpired(g, now)
  {
    KeepDistinctIds(m.queue, (r: Request) => r.deadline > now);
  }

  lemma DisconnectShrinks(m: Manager, id: RequestId)
    requires DistinctIds(m.queue)
    ensures Shrunk(Disconnect(m, id), m) && DistinctIds(Disconnect(m, id).queue)
    ensures forall r | r in Disconnect(m, id).queue :: r.id != id
  {
    KeepDistinctIds(m.queue, (r: Request) => r.id != id);
  }

  // ---- deliveries and prompts ----

  function Requested(b: Book, chan: Chan, c: Client): Book {
    b.(requests := b.requests[chan := c])
  }

  lemma DeliverKeepsTables(s: Agent, h: map<RequestId, HeldSign>, f: set<Chan>, chan: Chan, c: Client, b: Book)
    requires chan !in b.requests
    requires PendingOk(s.pending, f, s.approvals.uid, b)
    requires QueueOk(s.approvals.queue, s.pending, s.store.tracker.epoch, b)
    requires HeldOk(h, s.pending, f, s.approvals.uid, b)
    ensures PendingOk(s.pending, f + {chan}, s.approvals.uid, Requested(b, chan, c))
    ensures QueueOk(s.approvals.queue, s.pending, s.store.tracker.epoch, Requested(b, chan, c))
    ensures HeldOk(h, s.pending, f + {chan}, s.approvals.uid, Requested(b, chan, c))
  {
    var b' := Requested(b, chan, c);
    forall r | r in s.approvals.queue ensures QueuedFor(r, s.pending, s.store.tracker.epoch, b') {
      assert QueuedFor(r, s.pending, s.store.tracker.epoch, b);
    }
  }

  lemma DeliverKeepsHomes(pending: map<RequestId, PendingSign>, h: map<RequestId, HeldSign>, f: set<Chan>,
                          chan: Chan, c: Client, b: Book)
    requires HomesOk(pending, h, f, b) && chan !in b.answered
    ensures HomesOk(pending, h, f + {chan}, Requested(b, chan, c))
  {
    var b' := Requested(b, chan, c);
    forall x | x in b'.requests ensures x in b'.answered || x in f + {chan} || Placed(x, pending, h, b') {
      assert x == chan || x in b.answered || x in f || Placed(x, pending, h, b);
    }
  }

  lemma DeliverKeeps(s: Agent, h: map<RequestId, HeldSign>, f: set<Chan>, c: Client)
    requires Core(s, h, f)
    ensures var s' := Note(s.(nextChan := s.nextChan + 1), Delivered(s.nextChan, c));
            && Core(s', h, f + {s.nextChan})
            && Open(Observe(s'.log).book, s.nextChan)
            && Observe(s'.log).book.requests[s.nextChan] == c
  {
    var b := Observe(s.log).book;
    DeliverKeepsTables(s, h, f, s.nextChan, c, b);
    DeliverKeepsHomes(s.pending, h, f, s.nextChan, c, b);
  }

  /** Raise the approval prompt of a request that has just been queued. */
  ghost function Enqueue(s: Agent, r: Request, chan: Chan, message: seq<byte>, flags: nat, key: PublicIdentity): Agent {
    var m := s.approvals.(nextId := s.approvals.nextId + 1, queue := s.approvals.queue + [r]);
    var s := Emit(s.(approvals := m), ApprovalRequired(r.id, chan, key, r.peer, r.scope, Grantable(r.scope)));
    s.(pending := s.pending[r.id := PendingSign(chan, message, flags)])
  }

  lemma RaiseKeepsTables(s: Agent, f: set<Chan>, b: Book, r: Request, chan: Chan, message: seq<byte>, flags: nat)
    requires PendingOk(s.pending, f, s.approvals.uid, b)
    requires QueueOk(s.approvals.queue, s.pending, s.store.tracker.epoch, b)
    requires chan in f && Asks(b, chan, message, flags) && AsksFor(b, chan, r.blob, r.peer, r.scope)
    requires r.peer.uid == s.approvals.uid && r.id !in b.prompts && r.epoch == s.store.tracker.epoch
    ensures var pending := s.pending[r.id := PendingSign(chan, message, flags)];
            && PendingOk(pending, f - {chan}, s.approvals.uid, Raise(b, r.id, chan))
            && QueueOk(s.approvals.queue + [r], pending, s.store.tracker.epoch, Raise(b, r.id, chan))
  {
    var pending := s.pending[r.id := PendingSign(chan, message, flags)];
    var b' := Raise(b, r.id, chan);
    assert forall id | id in s.pending :: Prompted(b, id, s.pending[id].chan);
    forall x | x in s.approvals.queue + [r] ensures QueuedFor(x, pending, s.store.tracker.epoch, b') {
      if x in s.approvals.queue { assert QueuedFor(x, s.pending, s.store.tracker.epoch, b); }
    }
    forall i | 0 <= i < |s.approvals.queue| ensures s.approvals.queue[i].id != r.id {
      assert QueuedFor(s.approvals.queue[i], s.pending, s.store.tracker.epoch, b);
    }
  }

  lemma RaiseKeepsHomes(pending: map<RequestId, PendingSign>, h: map<RequestId, HeldSign>, f: set<Chan>, uid: nat,
                        b: Book, id: RequestId, chan: Chan, sign: PendingSign)
    requires PendingOk(pending, f, uid, b) && HeldOk(h, pending, f, uid, b) && HomesOk(pending, h, f, b)
    requires chan in f && id !in b.prompts && sign.chan == chan
    ensures HeldOk(h, pending[id := sign], f - {chan}, uid, Raise(b, id, chan))
    ensures HomesOk(pending[id := sign], h, f - {chan}, Raise(b, id, chan))
  {
    var b' := Raise(b, id, chan);
    assert forall k | k in pending :: Prompted(b, k, pending[k].chan);
    assert forall k | k in h :: Prompted(b, k, h[k].chan);
    forall x | x in b'.requests ensures x in b'.answered || x in f - {chan} || Placed(x, pending[id := sign], h, b') {
      assert x in b.answered || x in f || Placed(x, pending, h, b);
    }
  }

  lemma EnqueueKeeps(s: Agent, h: map<RequestId, HeldSign>, f: set<Chan>, r: Request, chan: Chan,
                     message: seq<byte>, flags: nat, key: PublicIdentity)
    requires Core(s, h, f) && Live(s) && chan in f
    requires Asks(Observe(s.log).book, chan, message, flags)
    requires AsksFor(Observe(s.log).book, chan, r.blob, r.peer, r.scope)
    requires r.peer.uid == s.approvals.uid && r.id == s.approvals.nextId && r.epoch == s.store.tracker.epoch
    requires key.blob == r.blob
    ensures Core(Enqueue(s, r, chan, message, flags, key), h, f - {chan})
  {
    var b := Observe(s.log).book;
    RaiseKeepsTables(s, f, b, r, chan, message, flags);
    RaiseKeepsHomes(s.pending, h, f, s.approvals.uid, b, r.id, chan, PendingSign(chan, message, flags));
    var s' := Enqueue(s, r, chan, message, flags, key);
    assert Observe(s'.log).book == Raise(b, r.id, chan);
  }
}
