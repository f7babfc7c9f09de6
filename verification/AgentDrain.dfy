/** Emptying the tables (a lock, a logout, a failed load, a shutdown), answering held
    listings, and publishing a load. */
module AgentDrain {
  import opened Base
  import opened KeyStoreModel
  import opened ApprovalModel
  import opened ObserverModel
  import opened AgentModel
  import opened AgentInvariant

  // ---- every table into the open ----

  ghost function PendingChans(pending: map<RequestId, PendingSign>): set<Chan> {
    set id | id in pending :: pending[id].chan
  }

  ghost function HeldChans(h: map<RequestId, HeldSign>): set<Chan> {
    set id | id in h :: h[id].chan
  }

  ghost predicate OneEach(pending: map<RequestId, PendingSign>) {
    forall i, j | i in pending && j in pending && pending[i].chan == pending[j].chan :: i == j
  }

  ghost predicate OneEachHeld(h: map<RequestId, HeldSign>) {
    forall i, j | i in h && j in h && h[i].chan == h[j].chan :: i == j
  }

  lemma TablesApart(s: Agent, h: map<RequestId, HeldSign>, f: set<Chan>)
    requires Core(s, h, f)
    ensures OneEach(s.pending) && OneEachHeld(h)
    ensures PendingChans(s.pending) !! HeldChans(h) && PendingChans(s.pending) !! f && HeldChans(h) !! f
  {
    hide QueueOk, HomesOk, GrantsOk, IdsOk;
    var b := Observe(s.log).book;
    assert forall id | id in s.pending :: Prompted(b, id, s.pending[id].chan);
    assert forall id | id in h :: Prompted(b, id, h[id].chan);
  }

  lemma FloatAllHomes(pending: map<RequestId, PendingSign>, h: map<RequestId, HeldSign>, f: set<Chan>, uid: nat,
                      b: Book)
    requires PendingOk(pending, f, uid, b) && HeldOk(h, pending, f, uid, b) && HomesOk(pending, h, f, b)
    requires PendingChans(pending) !! HeldChans(h)
    ensures HeldOk(h, map[], f + PendingChans(pending), uid, b)
    ensures HomesOk(map[], h, f + PendingChans(pending), b)
  {
    var f' := f + PendingChans(pending);
    forall c | c in b.requests ensures c in b.answered || c in f' || Placed(c, map[], h, b) {
      assert c in b.answered || c in f || Placed(c, pending, h, b);
    }
    forall id | id in h ensures h[id].chan !in f' {
      assert h[id].chan in HeldChans(h);
    }
  }

  lemma FloatAllPending(s: Agent, h: map<RequestId, HeldSign>, f: set<Chan>)
    requires Core(s, h, f)
    ensures Core(s.(pending := map[], approvals := InvalidateAll(s.approvals)), h, f + PendingChans(s.pending))
  {
    TablesApart(s, h, f);
    FloatAllHomes(s.pending, h, f, s.approvals.uid, Observe(s.log).book);
  }

  lemma FloatAllHeldHomes(pending: map<RequestId, PendingSign>, h: map<RequestId, HeldSign>, f: set<Chan>, uid: nat,
                          b: Book)
    requires PendingOk(pending, f, uid, b) && HeldOk(h, pending, f, uid, b) && HomesOk(pending, h, f, b)
    requires PendingChans(pending) !! HeldChans(h)
    ensures PendingOk(pending, f + HeldChans(h), uid, b)
    ensures HomesOk(pending, map[], f + HeldChans(h), b)
  {
    var f' := f + HeldChans(h);
    forall c | c in b.requests ensures c in b.answered || c in f' || Placed(c, pending, map[], b) {
      assert c in b.answered || c in f || Placed(c, pending, h, b);
    }
    forall id | id in pending ensures pending[id].chan !in f' {
      assert pending[id].chan in PendingChans(pending);
    }
  }

  lemma FloatAllHeld(s: Agent, h: map<RequestId, HeldSign>, f: set<Chan>)
    requires Core(s, h, f)
    ensures Core(s, map[], f + HeldChans(h))
  {
    TablesApart(s, h, f);
    FloatAllHeldHomes(s.pending, h, f, s.approvals.uid, Observe(s.log).book);
  }

  // ---- answering what is in the open ----

  ghost function ChansAt(pending: map<RequestId, PendingSign>, ids: seq<RequestId>): set<Chan>
    requires forall id | id in ids :: id in pending
  {
    set id | id in ids :: pending[id].chan
  }

  lemma LastPendingChan(pending: map<RequestId, PendingSign>, ids: seq<RequestId>, f: set<Chan>)
    requires ids != [] && OneEach(pending) && Increasing(ids)
    requires forall id | id in ids :: id in pending && pending[id].chan in f
    ensures var front := ids[..|ids| - 1];
            var chan := pending[ids[|ids| - 1]].chan;
            && (forall id | id in front :: id in ids)
            && chan in f - ChansAt(pending, front)
            && f - ChansAt(pending, front) - {chan} == f - ChansAt(pending, ids)
  {
    var front := ids[..|ids| - 1];
    var id := ids[|ids| - 1];
    assert ids == front + [id];
    assert id !in front;
    assert ChansAt(pending, ids) == ChansAt(pending, front) + {pending[id].chan};
  }

  lemma {:induction false} FailEachKeeps(s: Agent, h: map<RequestId, HeldSign>, f: set<Chan>,
                                         pending: map<RequestId, PendingSign>, ids: seq<RequestId>)
    requires Core(s, h, f) && OneEach(pending) && Increasing(ids)
    requires forall id | id in ids :: id in pending && pending[id].chan in f
    ensures Core(FailEach(s, pending, ids), h, f - ChansAt(pending, ids))
    ensures FailEach(s, pending, ids) == s.(log := FailEach(s, pending, ids).log)
  {
    if ids == [] {
      assert f - ChansAt(pending, ids) == f;
    } else {
      hide Core, ChansAt, OneEach;
      var front := ids[..|ids| - 1];
      LastPendingChan(pending, ids, f);
      FailEachKeeps(s, h, f, pending, front);
      ReplyFloating(FailEach(s, pending, front), h, f - ChansAt(pending, front), pending[ids[|ids| - 1]].chan, Failure);
    }
  }

  ghost function HeldChansAt(held: map<RequestId, HeldSign>, ids: seq<RequestId>): set<Chan>
    requires forall id | id in ids :: id in held
  {
    set id | id in ids :: held[id].chan
  }

  lemma LastHeldChan(held: map<RequestId, HeldSign>, ids: seq<RequestId>, f: set<Chan>)
    requires ids != [] && OneEachHeld(held) && Increasing(ids)
    requires forall id | id in ids :: id in held && held[id].chan in f
    ensures var front := ids[..|ids| - 1];
            var chan := held[ids[|ids| - 1]].chan;
            && (forall id | id in front :: id in ids)
            && chan in f - HeldChansAt(held, front)
            && f - HeldChansAt(held, front) - {chan} == f - HeldChansAt(held, ids)
  {
    var front := ids[..|ids| - 1];
    var id := ids[|ids| - 1];
    assert ids == front + [id];
    assert id !in front;
    assert HeldChansAt(held, ids) == HeldChansAt(held, front) + {held[id].chan};
  }

  lemma {:induction false} CancelEachKeeps(s: Agent, h: map<RequestId, HeldSign>, f: set<Chan>,
                                           held: map<RequestId, HeldSign>, ids: seq<RequestId>, reason: string)
    requires Core(s, h, f) && OneEachHeld(held) && Increasing(ids)
    requires forall id | id in ids :: id in held && held[id].chan in f
    ensures Core(CancelEach(s, held, ids, reason), h, f - HeldChansAt(held, ids))
    ensures CancelEach(s, held, ids, reason) == s.(log := CancelEach(s, held, ids, reason).log)
  {
    if ids == [] {
      assert f - HeldChansAt(held, ids) == f;
    } else {
      hide Core, HeldChansAt, OneEachHeld;
      var front := ids[..|ids| - 1];
      var id := ids[|ids| - 1];
      var chan := held[id].chan;
      LastHeldChan(held, ids, f);
      CancelEachKeeps(s, h, f, held, front, reason);
      var s1 := CancelEach(s, held, front, reason);
      ReplyFloating(s1, h, f - HeldChansAt(held, front), chan, Failure);
      EmitNeutral(Reply(s1, chan, Failure), h, f - HeldChansAt(held, ids), RequestCancelled(id, reason));
    }
  }

  /** The pending requests are already in the open: failing them answers exactly those. */
  lemma FailPendingKeeps(s: Agent, h: map<RequestId, HeldSign>, f: set<Chan>)
    requires Core(s.(pending := map[]), h, f + PendingChans(s.pending))
    requires OneEach(s.pending) && PendingChans(s.pending) !! f
    ensures Core(FailPending(s), h, f)
    ensures FailPending(s) == s.(pending := map[], log := FailPending(s).log)
  {
    hide Core;
    var ids := Ascending(s.pending.Keys);
    FailEachKeeps(s.(pending := map[]), h, f + PendingChans(s.pending), s.pending, ids);
    assert ChansAt(s.pending, ids) == PendingChans(s.pending);
    assert f + PendingChans(s.pending) - PendingChans(s.pending) == f;
  }

  lemma HeldChansAll(held: map<RequestId, HeldSign>)
    ensures HeldChansAt(held, Ascending(held.Keys)) == HeldChans(held)
    ensures forall id | id in held :: held[id].chan in HeldChans(held)
  {
  }

  lemma CancelHeldKeeps(s: Agent, f: set<Chan>, reason: string)
    requires Core(s, map[], f + HeldChans(s.held))
    requires OneEachHeld(s.held) && HeldChans(s.held) !! f
    ensures Core(CancelHeld(s, reason), map[], f)
    ensures CancelHeld(s, reason) == s.(held := map[], log := CancelHeld(s, reason).log)
  {
    hide Core, HeldChans;
    var ids := Ascending(s.held.Keys);
    CoreDependsOn(s, s.(held := map[]), map[], f + HeldChans(s.held));
    HeldChansAll(s.held);
    CancelEachKeeps(s.(held := map[]), map[], f + HeldChans(s.held), s.held, ids, reason);
    assert f + HeldChans(s.held) - HeldChans(s.held) == f;
  }

  // ---- held listings ----

  ghost function Waiting(s: Agent): set<Chan> {
    if s.listing.None? then {} else ChanSet(s.listing.value.waiting)
  }

  ghost function ChanSet(chans: seq<Chan>): set<Chan> {
    set c | c in chans
  }

  lemma LastWaiting(chans: seq<Chan>, f: set<Chan>)
    requires chans != [] && Distinct(chans) && forall c | c in chans :: c in f
    ensures var front := chans[..|chans| - 1];
            var chan := chans[|chans| - 1];
            && (forall c | c in front :: c in chans)
            && chan in f - ChanSet(front)
            && f - ChanSet(front) - {chan} == f - ChanSet(chans)
  {
    var front := chans[..|chans| - 1];
    var chan := chans[|chans| - 1];
    assert chans == front + [chan];
    assert chan !in front;
    assert ChanSet(chans) == ChanSet(front) + {chan};
  }

  lemma {:induction false} ReplyEachKeeps(s: Agent, h: map<RequestId, HeldSign>, f: set<Chan>, chans: seq<Chan>,
                                          r: Response)
    requires Core(s, h, f) && Distinct(chans) && !r.Signed?
    requires forall c | c in chans :: c in f && c in Observe(s.log).book.requests
                                      && Observe(s.log).book.requests[c].request.Identities?
    ensures Core(ReplyEach(s, chans, r), h, f - ChanSet(chans))
    ensures ReplyEach(s, chans, r) == s.(log := ReplyEach(s, chans, r).log)
    ensures Observe(ReplyEach(s, chans, r).log).book.requests == Observe(s.log).book.requests
  {
    if chans == [] {
      assert f - ChanSet(chans) == f;
    } else {
      hide Core, ChanSet;
      var front := chans[..|chans| - 1];
      LastWaiting(chans, f);
      ReplyEachKeeps(s, h, f, front, r);
      ReplyFloating(ReplyEach(s, front, r), h, f - ChanSet(front), chans[|chans| - 1], r);
    }
  }

  lemma NoListing(s: Agent, h: map<RequestId, HeldSign>, f: set<Chan>)
    requires Core(s, h, f)
    ensures Core(s.(listing := None), h, f)
  {
    hide QueueOk, HomesOk, GrantsOk, PendingOk, HeldOk, ApprovedOk;
  }

  lemma ReleaseListingKeeps(s: Agent, h: map<RequestId, HeldSign>, reason: string)
    requires Core(s, h, Waiting(s))
    ensures Core(ReleaseListing(s, reason), h, {})
    ensures ReleaseListing(s, reason) == s.(listing := None, log := ReleaseListing(s, reason).log)
  {
    if s.listing.Some? {
      var w := s.listing.value;
      assert ListingOk(w.waiting, Observe(s.log).book);
      hide Core;
      NoListing(s, h, Waiting(s));
      var r := Listing(ListKeys(s.store.public));
      ReplyEachKeeps(s.(listing := None), h, Waiting(s), w.waiting, r);
      assert Waiting(s) - ChanSet(w.waiting) == {};
      EmitNeutral(ReplyEach(s.(listing := None), w.waiting, r), h, {}, RequestCancelled(w.id, reason));
    }
  }

  // ---- publishing a load ----

  lemma {:induction false} AddAllKeeps(c: Candidate, items: seq<Item>)
    requires ValidCandidate(c)
    ensures ValidCandidate(AddAll(c, items).0)
    decreases |items|
  {
    if items != [] {
      AddKeepsCandidate(c, items[0]);
      AddAllKeeps(Add(c, items[0]).0, items[1..]);
    }
  }

  /** A load either leaves a valid store behind unpublished, or publishes its whole set
      unlocked at its own epoch. */
  lemma LoadIntoValid(store: Store, load: ActiveLoad)
    requires ValidStore(store) && load.payload.Some?
    ensures var (store', ok) := LoadInto(store, load);
            && ValidStore(store') && |store'.public| <= MAX_KEYS
            && (ok ==> Allows(store'.tracker, load.epoch) && |store'.private| == |store'.public|)
  {
    var payload := load.payload.value;
    if payload.Bytes? && payload.envelope.Some? {
      var empty := Candidate(load.epoch, 0, false, [], [], []);
      AddAllKeeps(empty, payload.envelope.value.1);
    }
  }

  /** A load moves the epoch on, or leaves the store as it was. */
  lemma LoadIntoLater(store: Store, load: ActiveLoad)
    requires load.payload.Some?
    ensures Later(LoadInto(store, load).0, store)
  {
    hide AddAll;
  }

  ghost function PublicBlobs(public: seq<PublicIdentity>): set<Blob> {
    set i | 0 <= i < |public| :: public[i].blob
  }

  lemma {:induction false} AnnounceObserved(s: Agent, epoch: nat, public: seq<PublicIdentity>)
    ensures var s' := AnnounceEach(s, epoch, public);
            && s' == s.(log := s'.log)
            && (Accepted(s.log, s.approvals.uid) ==> Accepted(s'.log, s.approvals.uid))
            && var o := Observe(s.log);
               Observe(s'.log) == o.(ring := o.ring.(announced := o.ring.announced + PublicBlobs(public)))
  {
    if public == [] {
      assert PublicBlobs(public) == {};
    } else {
      var front := public[..|public| - 1];
      AnnounceObserved(s, epoch, front);
      assert PublicBlobs(public) == PublicBlobs(front) + {public[|public| - 1].blob};
    }
  }

  lemma PublishedObserved(s: Agent, epoch: nat, public: seq<PublicIdentity>, count: nat)
    requires Observe(s.log).ring.announced == {} && Accepted(s.log, s.approvals.uid)
    ensures var s' := Emit(AnnounceEach(s, epoch, public), KeysLoaded(epoch, count));
            && s' == s.(log := s'.log)
            && Accepted(s'.log, s.approvals.uid)
            && Observe(s'.log) == Observe(s.log).(ring := Ring({}, PublicBlobs(public), true, epoch))
  {
    AnnounceObserved(s, epoch, public);
    assert {} + PublicBlobs(public) == PublicBlobs(public);
  }

  /** Finishing a load, whatever its outcome, keeps the invariant; a published one leaves
      the gate open over live keys, a refused one leaves it shut. */
  lemma FinishLoadKeeps(s: Agent, h: map<RequestId, HeldSign>, f: set<Chan>)
    requires Core(s, h, f) && !s.gateOpen
    ensures var (s', outcome) := FinishLoad(s);
            && Core(s', h, f)
            && s'.held == s.held && s'.listing == s.listing && s'.approvals == s.approvals && s'.pending == s.pending
            && s'.handshake == s.handshake && s'.unlockOnDemand == s.unlockOnDemand && s'.phase == s.phase
            && (outcome.Published? ==> Live(s') && s'.load.None?)
            && (!outcome.Published? ==> !s'.gateOpen)
            && (outcome.StillLoading? ==> s' == s)
            && Later(s'.store, s.store)
  {
    if s.load.Some? && s.load.value.ended && s.load.value.payload.Some? {
      hide Core, LoadInto, Observe, Accepted, AnnounceEach, Later, ValidStore, Lock;
      var load := s.load.value;
      CoreStore(s, h, f);
      LoadIntoValid(s.store, load);
      LoadIntoLater(s.store, load);
      var (store, ok) := LoadInto(s.store, load);
      if ok {
        PublishKeeps(s, h, f, load.epoch, store);
      } else {
        LocksAreLater(store, load.epoch);
        LaterOn(s.store, store, Lock(store, load.epoch));
        RefuseKeeps(s, h, f, load.epoch, store);
      }
    }
  }

  lemma PublishKeeps(s: Agent, h: map<RequestId, HeldSign>, f: set<Chan>, epoch: nat, store: Store)
    requires Core(s, h, f) && !s.gateOpen
    requires ValidStore(store) && Allows(store.tracker, epoch) && |store.private| == |store.public|
    ensures var s1 := s.(load := None, store := store, gateOpen := true);
            var s' := Emit(AnnounceEach(s1, epoch, store.public), KeysLoaded(epoch, |store.private|));
            Core(s', h, f) && s' == s1.(log := s'.log)
  {
    hide QueueOk, HomesOk, GrantsOk, PendingOk, HeldOk, ApprovedOk, IdsOk, AnnounceEach;
    PublishedObserved(s.(load := None, store := store, gateOpen := true), epoch, store.public, |store.private|);
    assert Blobs(store) == PublicBlobs(store.public);
    EmptyQueueAnyEpoch(s, store.tracker.epoch);
  }

  lemma RefuseKeeps(s: Agent, h: map<RequestId, HeldSign>, f: set<Chan>, epoch: nat, store: Store)
    requires Core(s, h, f) && !s.gateOpen && ValidStore(store)
    ensures Core(Emit(s.(load := None, store := Lock(store, epoch), gateOpen := false), LoadFailed(epoch)), h, f)
  {
    hide QueueOk, HomesOk, GrantsOk, PendingOk, HeldOk, ApprovedOk, IdsOk;
    EmptyQueueAnyEpoch(s, Lock(store, epoch).tracker.epoch);
  }

  /** With nothing queued and nothing granted, the epoch may move freely. */
  lemma EmptyQueueAnyEpoch(s: Agent, epoch: nat)
    requires s.approvals.queue == [] && s.approvals.grants == []
    requires GrantsOk(s.approvals.grants, s.approvals.nextGrantId, s.store.tracker.epoch, Observe(s.log).grants)
    ensures QueueOk(s.approvals.queue, s.pending, epoch, Observe(s.log).book)
    ensures GrantsOk(s.approvals.grants, s.approvals.nextGrantId, epoch, Observe(s.log).grants)
  {
  }
}
