/** The invariant at every event boundary, that every event keeps it, and what follows
    for whole runs. */
module AgentSafety {
  import opened Base
  import opened KeyStoreModel
  import opened ApprovalModel
  import opened ObserverModel
  import opened AgentModel
  import opened AgentInvariant
  import opened AgentArms
  import opened AgentRelease
  import opened AgentDrain

  /** Before `hello` nothing is held, loaded or expected. */
  predicate Pristine(s: Agent) {
    && !s.gateOpen && s.held == map[] && s.store == InitStore && !s.unlockOnDemand
    && s.listing.None? && s.load.None?
  }

  /** An open gate leaves nothing held and no load going; the four places are shared. */
  predicate Bounds(s: Agent) {
    && (s.gateOpen ==> s.held == map[] && s.load.None?)
    && |s.held| <= MAX_PENDING && |s.approvals.queue| <= MAX_PENDING
    && (!s.handshake && s.phase.Running? ==> Pristine(s))
  }

  /** What never goes back. */
  ghost predicate Onward(s': Agent, s: Agent) {
    (s.handshake ==> s'.handshake) && s'.approvals.uid == s.approvals.uid && Later(s'.store, s.store)
  }

  lemma OnwardOn(a: Agent, b: Agent, c: Agent)
    requires Onward(b, a) && Onward(c, b)
    ensures Onward(c, a)
  {
    LaterOn(a.store, b.store, c.store);
  }

  ghost predicate Inv(s: Agent) {
    Core(s, s.held, Waiting(s)) && Bounds(s)
  }

  lemma InitInv(uid: nat, clock: nat -> nat)
    ensures Inv(Init(uid, clock))
  {
  }

  // ---- a client's request ----

  lemma FreshChan(s: Agent, h: map<RequestId, HeldSign>, f: set<Chan>)
    requires Core(s, h, f)
    ensures s.nextChan !in f && s.nextChan !in Observe(s.log).book.requests
    ensures f + {s.nextChan} - {s.nextChan} == f
  {
    hide QueueOk, GrantsOk, PendingOk, HeldOk, ApprovedOk;
  }

  lemma HoldRaiseHomes(pending: map<RequestId, PendingSign>, h: map<RequestId, HeldSign>, f: set<Chan>, uid: nat,
                       b: Book, id: RequestId, q: HeldSign)
    requires PendingOk(pending, f, uid, b) && HeldOk(h, pending, f, uid, b) && HomesOk(pending, h, f, b)
    requires q.chan in f && id !in b.prompts && q.peer.uid == uid
    requires Asks(b, q.chan, q.message, q.flags) && AsksFor(b, q.chan, q.blob, q.peer, q.scope)
    ensures PendingOk(pending, f - {q.chan}, uid, Raise(b, id, q.chan))
    ensures HeldOk(h[id := q], pending, f - {q.chan}, uid, Raise(b, id, q.chan))
    ensures HomesOk(pending, h[id := q], f - {q.chan}, Raise(b, id, q.chan))
  {
    var b' := Raise(b, id, q.chan);
    HoldRaiseTables(pending, h, f, uid, b, id, q);
    hide PendingOk, HeldOk;
    assert f - {q.chan} <= f;
    forall x | x in b'.requests ensures x in b'.answered || x in f - {q.chan} || Placed(x, pending, h[id := q], b') {
      assert x in b.answered || x in f || Placed(x, pending, h, b);
      if x != q.chan && Placed(x, pending, h, b) { OldPrompt(pending, h, f, uid, b, id, x); }
    }
  }

  lemma OldPrompt(pending: map<RequestId, PendingSign>, h: map<RequestId, HeldSign>, f: set<Chan>, uid: nat,
                  b: Book, id: RequestId, x: Chan)
    requires PendingOk(pending, f, uid, b) && HeldOk(h, pending, f, uid, b) && id !in b.prompts
             && Placed(x, pending, h, b)
    ensures b.home[x] != id
  {
  }

  lemma HoldRaisePending(pending: map<RequestId, PendingSign>, f: set<Chan>, uid: nat, b: Book, id: RequestId,
                         chan: Chan)
    requires PendingOk(pending, f, uid, b) && chan in f && id !in b.prompts
    ensures PendingOk(pending, f - {chan}, uid, Raise(b, id, chan))
  {
    assert forall k | k in pending :: Prompted(b, k, pending[k].chan);
  }

  lemma HoldRaiseOthers(pending: map<RequestId, PendingSign>, h: map<RequestId, HeldSign>, f: set<Chan>, uid: nat,
                        b: Book, id: RequestId, chan: Chan)
    requires HeldOk(h, pending, f, uid, b) && chan in f && id !in b.prompts
    ensures HeldOk(h, pending, f - {chan}, uid, Raise(b, id, chan))
  {
    assert forall k | k in h :: Prompted(b, k, h[k].chan);
  }

  lemma HoldRaiseTables(pending: map<RequestId, PendingSign>, h: map<RequestId, HeldSign>, f: set<Chan>, uid: nat,
                        b: Book, id: RequestId, q: HeldSign)
    requires PendingOk(pending, f, uid, b) && HeldOk(h, pending, f, uid, b)
    requires q.chan in f && id !in b.prompts && q.peer.uid == uid
    requires Asks(b, q.chan, q.message, q.flags) && AsksFor(b, q.chan, q.blob, q.peer, q.scope)
    ensures PendingOk(pending, f - {q.chan}, uid, Raise(b, id, q.chan))
    ensures HeldOk(h[id := q], pending, f - {q.chan}, uid, Raise(b, id, q.chan))
  {
    HoldRaisePending(pending, f, uid, b, id, q.chan);
    HoldRaiseOthers(pending, h, f, uid, b, id, q.chan);
    assert forall k | k in pending :: Prompted(b, k, pending[k].chan);
  }

  lemma RaiseKeepsQueue(queue: seq<Request>, pending: map<RequestId, PendingSign>, epoch: nat, b: Book, id: RequestId,
                        chan: Chan)
    requires QueueOk(queue, pending, epoch, b)
    ensures QueueOk(queue, pending, epoch, Raise(b, id, chan))
  {
    forall r | r in queue ensures QueuedFor(r, pending, epoch, Raise(b, id, chan)) {
      assert QueuedFor(r, pending, epoch, b);
    }
  }

  /** The unlock prompt of a request. */
  ghost function Unlock(s: Agent, q: HeldSign, key: PublicIdentity): Agent {
    Emit(IdSkipped(s), UnlockRequired(s.approvals.nextId, q.chan, Some(key), q.peer, q.scope, Grantable(q.scope)))
  }

  ghost function Hold(s: Agent, q: HeldSign, key: PublicIdentity): Agent {
    ReadClock(Unlock(s, q, key))
  }

  lemma RaiseKeepsIds(s: Agent, b: Book, chan: Chan)
    requires IdsOk(s.approvals.nextId, s.nextChan, s.listing, b)
    ensures IdsOk(s.approvals.nextId + 1, s.nextChan, s.listing, Raise(b, s.approvals.nextId, chan))
  {
  }

  lemma UnlockKeeps(s: Agent, h: map<RequestId, HeldSign>, f: set<Chan>, q: HeldSign, key: PublicIdentity)
    requires Core(s, h, f) && q.chan in f && q.peer.uid == s.approvals.uid && q.approved.None? && key.blob == q.blob
    requires Asks(Observe(s.log).book, q.chan, q.message, q.flags)
    requires AsksFor(Observe(s.log).book, q.chan, q.blob, q.peer, q.scope)
    ensures Core(Unlock(s, q, key), h[s.approvals.nextId := q], f - {q.chan})
  {
    var b := Observe(s.log).book;
    var id := s.approvals.nextId;
    HoldRaiseHomes(s.pending, h, f, s.approvals.uid, b, id, q);
    RaiseKeepsQueue(s.approvals.queue, s.pending, s.store.tracker.epoch, b, id, q.chan);
    RaiseKeepsIds(s, b, q.chan);
    assert id !in b.prompts;
    hide QueueOk, GrantsOk, PendingOk, HeldOk, HomesOk, IdsOk;
    var out := UnlockRequired(id, q.chan, Some(key), q.peer, q.scope, Grantable(q.scope));
    assert Legal(Observe(s.log), s.approvals.uid, Emitted(out));
  }

  lemma HoldKeeps(s: Agent, h: map<RequestId, HeldSign>, f: set<Chan>, q: HeldSign, key: PublicIdentity)
    requires Core(s, h, f) && q.chan in f && q.peer.uid == s.approvals.uid && q.approved.None? && key.blob == q.blob
    requires Asks(Observe(s.log).book, q.chan, q.message, q.flags)
    requires AsksFor(Observe(s.log).book, q.chan, q.blob, q.peer, q.scope)
    ensures Core(Hold(s, q, key), h[s.approvals.nextId := q], f - {q.chan})
  {
    hide Core;
    UnlockKeeps(s, h, f, q, key);
    ReadClockKeeps(Unlock(s, q, key), h[s.approvals.nextId := q], f - {q.chan});
  }

  function HeldFor(chan: Chan, c: Client, now: nat): HeldSign
    requires c.request.SignData?
  {
    HeldSign(chan, c.request.blob, c.request.message, c.request.flags, c.peer, Scope(c),
             SatAdd(now, HELD_LIFETIME_MS), None)
  }

  predicate Holdable(s: Agent, c: Client)
    requires c.request.SignData?
  {
    && FindPublic(s.store.public, c.request.blob).Some? && c.peer.uid == s.approvals.uid
    && CapacityRemaining(s.approvals, |s.held|) != 0 && s.approvals.nextId < U64_MAX
  }

  lemma HoldSignShape(s: Agent, chan: Chan, c: Client)
    requires c.request.SignData?
    ensures HoldSign(s, chan, c) ==
            if !Holdable(s, c) then Reply(s, chan, Failure)
            else
              var q := HeldFor(chan, c, Now(s));
              Hold(s, q, FindPublic(s.store.public, c.request.blob).value).(held := s.held[s.approvals.nextId := q])
  {
  }

  lemma HoldSignKeeps(s: Agent, chan: Chan, c: Client)
    requires Core(s, s.held, Waiting(s) + {chan}) && chan !in Waiting(s) && !s.gateOpen && c.request.SignData?
    requires OpenSign(Observe(s.log).book, chan) && Observe(s.log).book.requests[chan] == c
    requires Bounds(s)
    ensures Inv(HoldSign(s, chan, c)) && Onward(HoldSign(s, chan, c), s)
  {
    hide Core, HoldSign, Observe, Hold, FindPublic, CapacityRemaining;
    HoldSignShape(s, chan, c);
    if !Holdable(s, c) {
      RefuseNow(s, chan);
    } else {
      HoldNow(s, chan, c);
    }
  }

  lemma RefuseNow(s: Agent, chan: Chan)
    requires Core(s, s.held, Waiting(s) + {chan}) && chan !in Waiting(s) && Bounds(s)
    ensures Inv(Reply(s, chan, Failure)) && Onward(Reply(s, chan, Failure), s)
  {
    hide Core;
    ReplyFloating(s, s.held, Waiting(s) + {chan}, chan, Failure);
    assert Waiting(s) + {chan} - {chan} == Waiting(s);
  }

  lemma HoldNow(s: Agent, chan: Chan, c: Client)
    requires Core(s, s.held, Waiting(s) + {chan}) && chan !in Waiting(s) && !s.gateOpen && c.request.SignData?
    requires OpenSign(Observe(s.log).book, chan) && Observe(s.log).book.requests[chan] == c
    requires Bounds(s) && Holdable(s, c)
    ensures var q := HeldFor(chan, c, Now(s));
            var key := FindPublic(s.store.public, c.request.blob).value;
            var s' := Hold(s, q, key).(held := s.held[s.approvals.nextId := q]);
            Inv(s') && Onward(s', s)
  {
    hide Core, Observe;
    var f := Waiting(s) + {chan};
    assert f - {chan} == Waiting(s);
    var q := HeldFor(chan, c, Now(s));
    var key := FindPublic(s.store.public, c.request.blob).value;
    var held := s.held[s.approvals.nextId := q];
    HoldKeeps(s, s.held, f, q, key);
    CoreDependsOn(Hold(s, q, key), Hold(s, q, key).(held := held), held, Waiting(s));
  }

  lemma JoinListing(s: Agent, h: map<RequestId, HeldSign>, f: set<Chan>, chan: Chan, w: HeldListing)
    requires Core(s, h, f) && chan in f
    requires chan in Observe(s.log).book.requests && Observe(s.log).book.requests[chan].request.Identities?
    requires s.listing == Some(w) && chan !in w.waiting
    ensures Core(s.(listing := Some(w.(waiting := w.waiting + [chan]))), h, f)
  {
    hide QueueOk, GrantsOk, PendingOk, HeldOk, HomesOk, ApprovedOk;
  }

  lemma StartListing(s: Agent, h: map<RequestId, HeldSign>, f: set<Chan>, chan: Chan, out: Output, deadline: nat)
    requires Core(s, h, f) && chan in f && s.listing.None?
    requires chan in Observe(s.log).book.requests && Observe(s.log).book.requests[chan].request.Identities?
    requires out.UnlockRequired? && out.cached.None?
    ensures var w := HeldListing(s.approvals.nextId, deadline, [chan]);
            Core(ReadClock(Emit(IdSkipped(s), out)).(listing := Some(w)), h, f)
  {
    hide Core;
    NextIdFresh(s, h, f);
    SkipIdKeeps(s, h, f);
    ListingPrompt(IdSkipped(s), h, f, out);
    var s1 := Emit(IdSkipped(s), out);
    ReadClockKeeps(s1, h, f);
    SetListing(ReadClock(s1), h, f, chan, HeldListing(s.approvals.nextId, deadline, [chan]));
  }

  lemma ListingPrompt(s: Agent, h: map<RequestId, HeldSign>, f: set<Chan>, out: Output)
    requires Core(s, h, f) && out.UnlockRequired? && out.cached.None?
    ensures Core(Emit(s, out), h, f) && Observe(Emit(s, out).log) == Observe(s.log)
  {
    hide QueueOk, GrantsOk, PendingOk, HeldOk, HomesOk, ApprovedOk, IdsOk;
  }

  /** The id of a listing was just handed out, so no prompt carries it. */
  lemma SetListing(s: Agent, h: map<RequestId, HeldSign>, f: set<Chan>, chan: Chan, w: HeldListing)
    requires Core(s, h, f) && w.waiting == [chan] && w.id < s.approvals.nextId && w.id !in Observe(s.log).book.prompts
    requires chan in Observe(s.log).book.requests && Observe(s.log).book.requests[chan].request.Identities?
    ensures Core(s.(listing := Some(w)), h, f)
  {
    hide QueueOk, GrantsOk, PendingOk, HeldOk, HomesOk, ApprovedOk;
  }

  lemma NextIdFresh(s: Agent, h: map<RequestId, HeldSign>, f: set<Chan>)
    requires Core(s, h, f)
    ensures s.approvals.nextId !in Observe(s.log).book.prompts
  {
    hide QueueOk, GrantsOk, PendingOk, HeldOk, HomesOk, ApprovedOk;
  }

  lemma HandleListingKeeps(s: Agent, chan: Chan, c: Client)
    requires Core(s, s.held, Waiting(s) + {chan}) && chan !in Waiting(s)
    requires chan in Observe(s.log).book.requests && Observe(s.log).book.requests[chan].request.Identities?
    requires Bounds(s)
    ensures Inv(HandleListing(s, chan, c)) && Onward(HandleListing(s, chan, c), s)
  {
    hide Core, Observe, Waiting;
    if s.store.public == [] && s.unlockOnDemand && c.peer.uid == s.approvals.uid {
      if s.listing.Some? {
        JoinCase(s, chan);
      } else if s.approvals.nextId < U64_MAX {
        StartCase(s, chan, c);
      } else {
        ListNow(s, chan);
      }
    } else {
      ListNow(s, chan);
    }
  }

  lemma ListNow(s: Agent, chan: Chan)
    requires Core(s, s.held, Waiting(s) + {chan}) && chan !in Waiting(s) && Bounds(s)
    requires chan in Observe(s.log).book.requests && Observe(s.log).book.requests[chan].request.Identities?
    ensures var s' := Reply(s, chan, Listing(ListKeys(s.store.public)));
            Inv(s') && Onward(s', s)
  {
    hide Core, Observe;
    ReplyFloating(s, s.held, Waiting(s) + {chan}, chan, Listing(ListKeys(s.store.public)));
    assert Waiting(s) + {chan} - {chan} == Waiting(s);
  }

  lemma JoinCase(s: Agent, chan: Chan)
    requires Core(s, s.held, Waiting(s) + {chan}) && chan !in Waiting(s) && Bounds(s) && s.listing.Some?
             && s.unlockOnDemand
    requires chan in Observe(s.log).book.requests && Observe(s.log).book.requests[chan].request.Identities?
    ensures var s' := s.(listing := Some(s.listing.value.(waiting := s.listing.value.waiting + [chan])));
            Inv(s') && Onward(s', s)
  {
    hide Core, Observe;
    JoinListing(s, s.held, Waiting(s) + {chan}, chan, s.listing.value);
    assert ChanSet(s.listing.value.waiting + [chan]) == Waiting(s) + {chan};
  }

  lemma StartCase(s: Agent, chan: Chan, c: Client)
    requires Core(s, s.held, Waiting(s) + {chan}) && Bounds(s) && s.listing.None? && s.unlockOnDemand
    requires chan in Observe(s.log).book.requests && Observe(s.log).book.requests[chan].request.Identities?
    ensures var id := s.approvals.nextId;
            var s1 := Emit(IdSkipped(s), UnlockRequired(id, chan, None, c.peer, Scope(c), false));
            var s' := ReadClock(s1).(listing := Some(HeldListing(id, SatAdd(Now(s1), HELD_LIFETIME_MS), [chan])));
            Inv(s') && Onward(s', s)
  {
    hide Core, Observe;
    var out := UnlockRequired(s.approvals.nextId, chan, None, c.peer, Scope(c), false);
    StartListing(s, s.held, Waiting(s) + {chan}, chan, out, SatAdd(Now(s), HELD_LIFETIME_MS));
    assert ChanSet([chan]) == Waiting(s) + {chan};
  }

  lemma HandleSignKeeps(s: Agent, chan: Chan, c: Client)
    requires Core(s, s.held, Waiting(s) + {chan}) && chan !in Waiting(s) && s.gateOpen && c.request.SignData?
    requires OpenSign(Observe(s.log).book, chan) && Observe(s.log).book.requests[chan] == c
    requires Bounds(s)
    ensures Inv(HandleSign(s, chan, c)) && Onward(HandleSign(s, chan, c), s)
  {
    hide Core, Observe, SubmitSign;
    var blob := c.request.blob;
    if Authorize(s.store, blob).None? {
      RefuseNow(s, chan);
    } else if c.peer.uid != s.approvals.uid {
      WrongUser(s, chan, c);
    } else {
      var f := Waiting(s) + {chan};
      assert f - {chan} == Waiting(s);
      CoreStore(s, s.held, f);
      SubmitKeeps(s, s.held, f, chan, blob, c.request.message, c.request.flags, c.peer, Scope(c));
      KeyIsListed(s.store, blob);
      SubmitFrame(s, chan, blob, c.request.message, c.request.flags, c.peer, Scope(c));
    }
  }

  lemma WrongUser(s: Agent, chan: Chan, c: Client)
    requires Core(s, s.held, Waiting(s) + {chan}) && chan !in Waiting(s) && c.request.SignData?
    requires Bounds(s) && c.peer.uid != s.approvals.uid
    ensures var s' := SubmitSign(s, chan, c.request.blob, c.request.message, c.request.flags, c.peer, Scope(c));
            Inv(s') && Onward(s', s)
  {
    hide Core, Observe;
    ReadClockKeeps(s, s.held, Waiting(s) + {chan});
    RefuseNow(ReadClock(s), chan);
  }

  lemma ClientKeeps(s: Agent, c: Client)
    requires Inv(s)
    ensures Inv(HandleClient(s, c)) && Onward(HandleClient(s, c), s)
  {
    hide Core, Observe, HandleListing, HandleSign, HoldSign, Bounds, Waiting;
    var chan := s.nextChan;
    Delivering(s, c);
    var s1 := Note(s.(nextChan := chan + 1), Delivered(chan, c));
    match c.request
    case SessionBind => RefuseNow(s1, chan);
    case Identities => HandleListingKeeps(s1, chan, c);
    case SignData(_, _, _) =>
      if s.gateOpen { HandleSignKeeps(s1, chan, c); } else { HoldSignKeeps(s1, chan, c); }
  }

  lemma Delivering(s: Agent, c: Client)
    requires Inv(s)
    ensures var chan := s.nextChan;
            var s1 := Note(s.(nextChan := chan + 1), Delivered(chan, c));
            && Core(s1, s1.held, Waiting(s1) + {chan}) && chan !in Waiting(s1) && Bounds(s1)
            && Open(Observe(s1.log).book, chan) && Observe(s1.log).book.requests[chan] == c
            && s1.held == s.held
  {
    hide Core, Observe;
    FreshChan(s, s.held, Waiting(s));
    DeliverKeeps(s, s.held, Waiting(s), c);
  }

  // ---- the panel ----

  /** Messages that change nothing an observer tracks. */
  predicate Silent(c: Control) {
    c.Hello? || c.Options? || c.Deny? || c.UnlockCancelled? || c.Shutdown? || c.KeyLoadEnd?
  }

  lemma ToldSilent(s: Agent, h: map<RequestId, HeldSign>, f: set<Chan>, c: Control)
    requires Core(s, h, f) && Silent(c)
    ensures Core(Note(s, Told(c)), h, f)
  {
    hide QueueOk, GrantsOk, PendingOk, HeldOk, HomesOk, ApprovedOk, IdsOk;
  }

  lemma OpenGateKeeps(s: Agent, h: map<RequestId, HeldSign>, f: set<Chan>)
    requires Core(s, h, f) && s.store.tracker.state != Unlocked
    ensures Core(s.(handshake := true, gateOpen := true), h, f)
  {
    hide QueueOk, GrantsOk, PendingOk, HeldOk, HomesOk, ApprovedOk, IdsOk;
  }

  lemma HelloKeeps(s: Agent)
    requires Inv(s) && s.phase.Running?
    ensures Inv(OnControl(s, Hello)) && Onward(OnControl(s, Hello), s)
  {
    hide Core;
    var s1 := Note(s, Told(Hello));
    ToldSilent(s, s.held, Waiting(s), Hello);
    if !s.handshake {
      OpenGateKeeps(s1, s.held, Waiting(s));
      EmitNeutral(s1.(handshake := true, gateOpen := true), s.held, Waiting(s), Ready);
    } else {
      CoreDependsOn(s1, s1.(phase := Failed), s.held, Waiting(s));
    }
  }

  /** Shutting the gate, with everything that was waiting in the open. */
  lemma ShutGate(s: Agent, h: map<RequestId, HeldSign>, f: set<Chan>, c: Control, store: Store)
    requires Core(s, h, f) && ValidStore(store)
    requires s.pending == map[] && s.approvals.queue == [] && s.approvals.grants == []
    requires c.VaultLocked? || c.VaultLoggedOut? || c.KeyLoadBegin?
    requires !c.KeyLoadBegin? ==> h == map[]
    ensures Core(Note(s, Told(c)).(gateOpen := false, load := None, store := store), h, f)
  {
    EmptyQueueAnyEpoch(s, store.tracker.epoch);
    hide QueueOk, PendingOk, HeldOk, HomesOk, IdsOk;
    var s' := Note(s, Told(c)).(gateOpen := false, load := None, store := store);
    assert Observe(s'.log).book == Observe(s.log).book;
  }

  /** Everything pending and held is in the open, apart from what else is. */
  ghost predicate InTheOpen(s: Agent, f: set<Chan>) {
    && Core(s.(pending := map[]), map[], f + HeldChans(s.held) + PendingChans(s.pending))
    && OneEach(s.pending) && OneEachHeld(s.held)
    && PendingChans(s.pending) !! HeldChans(s.held) && PendingChans(s.pending) !! f && HeldChans(s.held) !! f
  }

  /** The three drains answer it all. */
  lemma DrainKeeps(s: Agent, reason: string)
    requires InTheOpen(s, Waiting(s))
    ensures var s' := ReleaseListing(CancelHeld(FailPending(s), reason), reason);
            Core(s', map[], {}) && s' == s.(pending := map[], held := map[], listing := None, log := s'.log)
  {
    hide Core, Observe, FailPending, CancelHeld, ReleaseListing, PendingChans, HeldChans, OneEach, OneEachHeld;
    var f := Waiting(s);
    FailPendingKeeps(s, map[], f + HeldChans(s.held));
    CancelHeldKeeps(FailPending(s), f, reason);
    ReleaseListingKeeps(CancelHeld(FailPending(s), reason), map[], reason);
  }

  /** A lock or a logout shuts the gate first. */
  lemma ShutOpens(s: Agent, c: Control, store: Store)
    requires Inv(s) && ValidStore(store) && (c.VaultLocked? || c.VaultLoggedOut?)
    ensures InTheOpen(Note(s, Told(c)).(gateOpen := false, load := None, store := store,
                                        approvals := InvalidateAll(s.approvals)), Waiting(s))
  {
    hide Core, Observe, PendingChans, HeldChans, OneEach, OneEachHeld;
    var f := Waiting(s);
    TablesApart(s, s.held, f);
    FloatAllPending(s, s.held, f);
    var sA := s.(pending := map[], approvals := InvalidateAll(s.approvals));
    FloatAllHeld(sA, s.held, f + PendingChans(s.pending));
    ShutGate(sA, map[], f + PendingChans(s.pending) + HeldChans(s.held), c, store);
    SwapUnion(f, PendingChans(s.pending), HeldChans(s.held));
  }

  /** A lock or a logout: the gate shuts first, then every table is emptied and answered. */
  lemma DeactivateKeeps(s: Agent, c: Control, store: Store, reason: string)
    requires Inv(s) && ValidStore(store) && (c.VaultLocked? || c.VaultLoggedOut?)
    ensures var s' := Deactivate(Note(s, Told(c)), store, reason);
            && Core(s', map[], {}) && s'.held == map[] && s'.pending == map[] && s'.listing.None? && s'.load.None?
            && !s'.gateOpen && s'.approvals == InvalidateAll(s.approvals)
            && s'.handshake == s.handshake && s'.phase == s.phase && s'.store == store
  {
    hide Core, InTheOpen, FailPending, CancelHeld, ReleaseListing;
    ShutOpens(s, c, store);
    DrainKeeps(Note(s, Told(c)).(gateOpen := false, load := None, store := store,
                                 approvals := InvalidateAll(s.approvals)), reason);
  }

  lemma LockKeeps(s: Agent, epoch: nat)
    requires Inv(s) && s.handshake
    ensures Inv(OnControl(s, VaultLocked(epoch))) && Onward(OnControl(s, VaultLocked(epoch)), s)
  {
    hide Core, Deactivate;
    LocksAreLater(s.store, epoch);
    CoreStore(s, s.held, Waiting(s));
    DeactivateKeeps(s, VaultLocked(epoch), Lock(s.store, epoch), "locked");
    EmitNeutral(Deactivate(Note(s, Told(VaultLocked(epoch))), Lock(s.store, epoch), "locked"), map[], {},
                LockedAck(epoch));
  }

  lemma LogoutKeeps(s: Agent)
    requires Inv(s) && s.handshake
    ensures Inv(OnControl(s, VaultLoggedOut)) && Onward(OnControl(s, VaultLoggedOut), s)
  {
    hide Core, Deactivate;
    LocksAreLater(s.store, SatAdd(s.store.tracker.epoch, 1));
    CoreStore(s, s.held, Waiting(s));
    DeactivateKeeps(s, VaultLoggedOut, Logout(s.store, SatAdd(s.store.tracker.epoch, 1)), "logged-out");
  }

  // ---- shutting down ----

  lemma FinishOpens(s: Agent)
    requires Inv(s)
    ensures InTheOpen(s.(approvals := InvalidateAll(s.approvals), load := None), Waiting(s))
  {
    hide Core, Observe, PendingChans, HeldChans, OneEach, OneEachHeld;
    var f := Waiting(s);
    TablesApart(s, s.held, f);
    FloatAllPending(s, s.held, f);
    var sA := s.(pending := map[], approvals := InvalidateAll(s.approvals));
    FloatAllHeld(sA, s.held, f + PendingChans(s.pending));
    CoreDependsOn(sA, sA.(load := None), map[], f + PendingChans(s.pending) + HeldChans(s.held));
    SwapUnion(f, PendingChans(s.pending), HeldChans(s.held));
  }

  lemma LogoutStore(s: Agent, epoch: nat)
    requires Core(s, map[], {}) && s.pending == map[] && s.approvals.queue == [] && s.approvals.grants == []
    ensures Core(s.(store := Logout(s.store, epoch), phase := Stopped), map[], {})
  {
    EmptyQueueAnyEpoch(s, Logout(s.store, epoch).tracker.epoch);
    hide QueueOk, GrantsOk, PendingOk, HeldOk, HomesOk, IdsOk;
  }

  lemma FinishKeeps(s: Agent)
    requires Inv(s)
    ensures Inv(Finish(s)) && Onward(Finish(s), s)
    ensures Finish(s).pending == map[] && Finish(s).held == map[] && Finish(s).listing.None?
            && Finish(s).phase == Stopped
  {
    hide Core, InTheOpen, FailPending, CancelHeld, ReleaseListing;
    LocksAreLater(s.store, SatAdd(s.store.tracker.epoch, 1));
    FinishOpens(s);
    var s1 := s.(approvals := InvalidateAll(s.approvals), load := None);
    DrainKeeps(s1, "shutdown");
    var s2 := ReleaseListing(CancelHeld(FailPending(s1), "shutdown"), "shutdown");
    LogoutStore(s2, SatAdd(s.store.tracker.epoch, 1));
    CoreStore(s, s.held, Waiting(s));
  }

  // ---- approving, denying, revoking ----

  ghost function WithApproval(held: map<RequestId, HeldSign>, id: RequestId, d: GrantDuration): map<RequestId, HeldSign>
  {
    if id in held then held[id := held[id].(approved := Some(d))] else held
  }

  lemma ApprovalKeepsHeld(pending: map<RequestId, PendingSign>, h: map<RequestId, HeldSign>, f: set<Chan>, uid: nat,
                          o: Observer, id: RequestId, d: GrantDuration)
    requires HeldOk(h, pending, f, uid, o.book) && HomesOk(pending, h, f, o.book) && ApprovedOk(h, o.approved)
    ensures HeldOk(WithApproval(h, id, d), pending, f, uid, o.book)
    ensures HomesOk(pending, WithApproval(h, id, d), f, o.book)
    ensures ApprovedOk(WithApproval(h, id, d), Hear(o, ApproveRequest(id, d)).approved)
  {
    var b := o.book;
    var h' := WithApproval(h, id, d);
    ApprovalHeard(pending, h, f, uid, o, id, d);
    hide ApprovedOk;
    forall c | c in b.requests ensures c in b.answered || c in f || Placed(c, pending, h', b) {
      assert c in b.answered || c in f || Placed(c, pending, h, b);
    }
  }

  lemma ApprovalHeard(pending: map<RequestId, PendingSign>, h: map<RequestId, HeldSign>, f: set<Chan>, uid: nat,
                      o: Observer, id: RequestId, d: GrantDuration)
    requires HeldOk(h, pending, f, uid, o.book) && ApprovedOk(h, o.approved)
    ensures ApprovedOk(WithApproval(h, id, d), Hear(o, ApproveRequest(id, d)).approved)
  {
    assert forall k | k in h :: Prompted(o.book, k, h[k].chan);
  }

  lemma ApprovalSeen(pending: map<RequestId, PendingSign>, f: set<Chan>, uid: nat, o: Observer, id: RequestId,
                     d: GrantDuration)
    requires PendingOk(pending, f, uid, o.book) && id in pending
    ensures var approved := Hear(o, ApproveRequest(id, d)).approved;
            pending[id].chan in approved && approved[pending[id].chan] == d
  {
    assert Prompted(o.book, id, pending[id].chan);
  }

  lemma ApproveTold(s: Agent, h: map<RequestId, HeldSign>, f: set<Chan>, id: RequestId, d: GrantDuration)
    requires Core(s, h, f)
    ensures var s' := Note(s, Told(ApproveRequest(id, d)));
            && Core(s', WithApproval(h, id, d), f)
            && (id in s.pending ==>
                  s.pending[id].chan in Observe(s'.log).approved && Observe(s'.log).approved[s.pending[id].chan] == d)
  {
    hide QueueOk, PendingOk, HeldOk, HomesOk, IdsOk, ApprovedOk, GrantsOk, WithApproval;
    ApprovalKeepsHeld(s.pending, h, f, s.approvals.uid, Observe(s.log), id, d);
    if id in s.pending { ApprovalSeen(s.pending, f, s.approvals.uid, Observe(s.log), id, d); }
  }

  lemma OnApproveFrame(s: Agent, id: RequestId, d: GrantDuration)
    requires id in s.pending
    ensures var sign := s.pending[id];
            var (s', a) := ApproveQueued(s.(pending := s.pending - {id}), id, sign.chan, d);
            && Same(Answer(s', sign.chan, a, sign.message, sign.flags), s)
            && |Answer(s', sign.chan, a, sign.message, sign.flags).approvals.queue| <= |s.approvals.queue|
  {
    hide ApproveQueued;
    ApproveFrame(s.(pending := s.pending - {id}), id, s.pending[id].chan, d);
  }

  lemma ApproveKeeps(s: Agent, id: RequestId, d: GrantDuration)
    requires Inv(s) && s.handshake
    ensures Inv(OnControl(s, ApproveRequest(id, d))) && Onward(OnControl(s, ApproveRequest(id, d)), s)
  {
    hide Core, Observe, ApproveQueued, SettleGranted;
    var s1 := Note(s, Told(ApproveRequest(id, d)));
    var f := Waiting(s);
    ApproveTold(s, s.held, f, id, d);
    if id in s.held {
      var held := WithApproval(s.held, id, d);
      CoreDependsOn(s1, s1.(held := held), held, f);
    } else if id in s.pending {
      ApprovePendingKeeps(s1, s.held, f, id, d);
      OnApproveFrame(s1, id, d);
      var (s2, a) := ApproveQueued(s1.(pending := s1.pending - {id}), id, s1.pending[id].chan, d);
      var s3 := Answer(s2, s1.pending[id].chan, a, s1.pending[id].message, s1.pending[id].flags);
      SettleGrantedKeeps(s3, s.held, f);
    }
  }

  lemma DenyPending(s: Agent, h: map<RequestId, HeldSign>, f: set<Chan>, id: RequestId)
    requires Core(s, h, f)
    ensures var s1 := s.(approvals := Disconnect(s.approvals, id));
            && Core(s1, h, f)
            && (id in s.pending ==> Core(Reply(s1.(pending := s1.pending - {id}), s1.pending[id].chan, Failure), h, f))
  {
    var m := Disconnect(s.approvals, id);
    DisconnectShrinks(s.approvals, id);
    ShrinkKeeps(s, h, f, m);
    var s1 := s.(approvals := m);
    if id in s.pending {
      TablesApart(s1, h, f);
      FloatPending(s1, h, f, id);
      hide Core;
      var chan := s.pending[id].chan;
      ReplyFloating(s1.(pending := s1.pending - {id}), h, f + {chan}, chan, Failure);
      assert chan in PendingChans(s.pending);
      assert f + {chan} - {chan} == f;
    }
  }

  lemma DenyHeld(s: Agent, h: map<RequestId, HeldSign>, f: set<Chan>, id: RequestId)
    requires Core(s, h, f) && id in h
    ensures Core(Reply(s, h[id].chan, Failure), h - {id}, f)
  {
    hide Core;
    TablesApart(s, h, f);
    FloatHeld(s, h, f, id);
    var chan := h[id].chan;
    ReplyFloating(s, h - {id}, f + {chan}, chan, Failure);
    assert chan in HeldChans(h);
    assert f + {chan} - {chan} == f;
  }

  lemma DenyHeldKeeps(s: Agent, id: RequestId)
    requires Inv(s)
    ensures var s' := if id in s.held then Reply(s.(held := s.held - {id}), s.held[id].chan, Failure) else s;
            Inv(s') && Onward(s', s)
  {
    hide Core;
    if id in s.held {
      var s' := Reply(s.(held := s.held - {id}), s.held[id].chan, Failure);
      DenyHeld(s, s.held, Waiting(s), id);
      CoreDependsOn(Reply(s, s.held[id].chan, Failure), s', s.held - {id}, Waiting(s));
      SubsetSize((s.held - {id}).Keys, s.held.Keys);
    }
  }

  lemma DenyPendingKeeps(s: Agent, id: RequestId)
    requires Inv(s)
    ensures var s1 := s.(approvals := Disconnect(s.approvals, id));
            var s' := if id in s1.pending
                      then Reply(s1.(pending := s1.pending - {id}), s1.pending[id].chan, Failure) else s1;
            Inv(s') && Onward(s', s)
  {
    hide Core;
    DenyPending(s, s.held, Waiting(s), id);
    assert |Disconnect(s.approvals, id).queue| <= |s.approvals.queue|;
  }

  lemma DenyListing(s: Agent, id: RequestId)
    requires Inv(s)
    ensures var s' := if s.listing.Some? && s.listing.value.id == id then ReleaseListing(s, "cancelled") else s;
            Inv(s') && Onward(s', s)
  {
    hide Core, ReleaseListing;
    ReleaseListingKeeps(s, s.held, "cancelled");
  }

  lemma OnDenyKeeps(s: Agent, id: RequestId)
    requires Inv(s)
    ensures Inv(OnDeny(s, id)) && Onward(OnDeny(s, id), s)
  {
    hide Inv, ReleaseListing, Disconnect;
    var s1 := s.(approvals := Disconnect(s.approvals, id));
    DenyPendingKeeps(s, id);
    var s2 := if id in s1.pending then Reply(s1.(pending := s1.pending - {id}), s1.pending[id].chan, Failure) else s1;
    DenyHeldKeeps(s2, id);
    var s3 := if id in s2.held then Reply(s2.(held := s2.held - {id}), s2.held[id].chan, Failure) else s2;
    DenyListing(s3, id);
  }

  lemma DenyKeeps(s: Agent, c: Control)
    requires Inv(s) && s.handshake && (c.Deny? || c.UnlockCancelled?)
    ensures Inv(OnControl(s, c)) && Onward(OnControl(s, c), s)
  {
    hide Core, OnDeny;
    ToldSilent(s, s.held, Waiting(s), c);
    OnDenyKeeps(Note(s, Told(c)), c.id);
  }

  lemma RevokeKeepsHeld(s: Agent, h: map<RequestId, HeldSign>, f: set<Chan>, uid: nat, b: Book,
                        approved: map<Chan, GrantDuration>)
    requires HeldOk(h, s.pending, f, uid, b) && HomesOk(s.pending, h, f, b) && ApprovedOk(h, approved)
    ensures HeldOk(Revoked(h), s.pending, f, uid, b) && HomesOk(s.pending, Revoked(h), f, b)
    ensures ApprovedOk(Revoked(h), map c | c in approved :: Once)
  {
    var h' := Revoked(h);
    forall c | c in b.requests ensures c in b.answered || c in f || Placed(c, s.pending, h', b) {
      assert c in b.answered || c in f || Placed(c, s.pending, h, b);
    }
  }

  lemma RevokeAllTold(s: Agent, h: map<RequestId, HeldSign>, f: set<Chan>)
    requires Core(s, h, f)
    ensures Core(Note(s, Told(RevokeGrants)).(approvals := RevokeAllGrants(s.approvals)), Revoked(h), f)
  {
    var o := Observe(s.log);
    RevokeKeepsHeld(s, h, f, s.approvals.uid, o.book, o.approved);
    hide QueueOk, PendingOk, HeldOk, HomesOk, IdsOk, ApprovedOk;
  }

  lemma RevokeAllKeeps(s: Agent)
    requires Inv(s) && s.handshake
    ensures Inv(OnControl(s, RevokeGrants)) && Onward(OnControl(s, RevokeGrants), s)
  {
    hide Core;
    RevokeAllTold(s, s.held, Waiting(s));
    assert Revoked(s.held).Keys == s.held.Keys;
    var s1 := Note(s, Told(RevokeGrants)).(approvals := RevokeAllGrants(s.approvals));
    CoreDependsOn(s1, s1.(held := Revoked(s.held)), Revoked(s.held), Waiting(s));
  }

  lemma RevokeOneTold(s: Agent, h: map<RequestId, HeldSign>, f: set<Chan>, g: GrantId)
    requires Core(s, h, f)
    ensures Core(Note(s, Told(RevokeOne(g))).(approvals := RevokeGrant(s.approvals, g)), h, f)
  {
    hide QueueOk, PendingOk, HeldOk, HomesOk, IdsOk, ApprovedOk;
  }

  lemma RevokeOneKeeps(s: Agent, g: GrantId)
    requires Inv(s) && s.handshake
    ensures Inv(OnControl(s, RevokeOne(g))) && Onward(OnControl(s, RevokeOne(g)), s)
  {
    hide Core;
    RevokeOneTold(s, s.held, Waiting(s), g);
  }

  lemma OptionsKeeps(s: Agent, on: bool)
    requires Inv(s) && s.handshake
    ensures Inv(OnControl(s, Options(on))) && Onward(OnControl(s, Options(on)), s)
  {
    hide Core;
    ToldSilent(s, s.held, Waiting(s), Options(on));
    var s1 := Note(s, Told(Options(on)));
    CoreDependsOn(s1, s1.(unlockOnDemand := on), s.held, Waiting(s));
  }

  // ---- loading ----

  lemma LoadBeginOpens(s: Agent, epoch: nat, loadId: seq<byte>)
    requires Inv(s)
    ensures var s1 :=
              Note(s, Told(KeyLoadBegin(epoch, loadId))).(gateOpen := false, approvals := InvalidateAll(s.approvals));
            && Core(s1.(pending := map[], load := None), s.held, Waiting(s) + PendingChans(s.pending))
            && OneEach(s.pending) && PendingChans(s.pending) !! Waiting(s)
  {
    hide Core, Observe, PendingChans, HeldChans, OneEach, OneEachHeld;
    var f := Waiting(s);
    TablesApart(s, s.held, f);
    FloatAllPending(s, s.held, f);
    CoreStore(s, s.held, f);
    ShutGate(s.(pending := map[], approvals := InvalidateAll(s.approvals)), s.held, f + PendingChans(s.pending),
             KeyLoadBegin(epoch, loadId), s.store);
  }

  lemma StrayLoadBegin(s: Agent, epoch: nat, loadId: seq<byte>)
    requires Core(s, s.held, Waiting(s)) && !s.gateOpen
    ensures Core(Note(s, Told(KeyLoadBegin(epoch, loadId))).(phase := Failed), s.held, Waiting(s))
  {
    hide QueueOk, PendingOk, HeldOk, HomesOk, IdsOk, ApprovedOk;
  }

  lemma LoadBeginKeeps(s: Agent, epoch: nat, loadId: seq<byte>)
    requires Inv(s) && s.handshake
    ensures Inv(OnControl(s, KeyLoadBegin(epoch, loadId))) && Onward(OnControl(s, KeyLoadBegin(epoch, loadId)), s)
  {
    hide Core, Observe, FailPending;
    if s.load.Some? {
      StrayLoadBegin(s, epoch, loadId);
    } else {
      LoadBeginOpens(s, epoch, loadId);
      var s1 := Note(s, Told(KeyLoadBegin(epoch, loadId))).(gateOpen := false, approvals := InvalidateAll(s.approvals));
      FailPendingKeeps(s1, s.held, Waiting(s));
      var s2 := FailPending(s1);
      CoreDependsOn(s2, s2.(phase := Failed), s.held, Waiting(s));
      CoreDependsOn(s2, s2.(load := Some(ActiveLoad(epoch, loadId, None, false, None))), s.held, Waiting(s));
    }
  }

  lemma CancelKeeps(s: Agent, reason: string)
    requires Core(s, s.held, Waiting(s))
    ensures var s' := ReleaseListing(CancelHeld(s, reason), reason);
            Core(s', map[], {}) && s' == s.(held := map[], listing := None, log := s'.log)
  {
    hide Core, CancelHeld, ReleaseListing, HeldChans, OneEachHeld;
    var f := Waiting(s);
    TablesApart(s, s.held, f);
    FloatAllHeld(s, s.held, f);
    CancelHeldKeeps(s, f, reason);
    ReleaseListingKeeps(CancelHeld(s, reason), map[], reason);
  }

  /** Settling a load, from a closed gate. */
  lemma SettleLoadKeeps(s: Agent)
    requires Inv(s) && !s.gateOpen && s.handshake
    ensures Inv(SettleLoad(s))
    ensures SettleLoad(s).phase == s.phase && Onward(SettleLoad(s), s)
  {
    hide Core, FinishLoad, ReleaseHeld, CancelHeld, ReleaseListing;
    FinishLoadKeeps(s, s.held, Waiting(s));
    var (s1, outcome) := FinishLoad(s);
    match outcome
    case StillLoading =>
    case Published =>
      ReleaseHeldKeeps(s1, Waiting(s));
      QueueEmptyWhenShut(s);
      ReleaseListingKeeps(ReleaseHeld(s1), map[], "released");
    case LoadRefused => CancelKeeps(s1, "load-failed");
  }

  lemma QueueEmptyWhenShut(s: Agent)
    requires Inv(s) && !s.gateOpen
    ensures s.approvals.queue == [] && s.approvals.grants == [] && s.pending == map[]
  {
  }

  lemma LockStoreKeeps(s: Agent, h: map<RequestId, HeldSign>, f: set<Chan>, epoch: nat)
    requires Core(s, h, f) && !s.gateOpen
    ensures Core(s.(store := Lock(s.store, epoch), load := None), h, f)
  {
    EmptyQueueAnyEpoch(s, Lock(s.store, epoch).tracker.epoch);
    hide QueueOk, PendingOk, HeldOk, HomesOk, IdsOk, ApprovedOk, GrantsOk;
  }

  /** A load the panel has ended, before it is settled. */
  ghost function Ended(s: Agent): Agent
    requires s.load.Some?
  {
    var deadline := SatAdd(Now(s), LOAD_END_GRACE_MS);
    ReadClock(s).(load := Some(s.load.value.(ended := true, deadline := Some(deadline))))
  }

  lemma EndedKeeps(s: Agent, epoch: nat)
    requires Inv(s) && s.handshake && s.load.Some?
    ensures var s' := Ended(Note(s, Told(KeyLoadEnd(epoch, true))));
            Inv(s') && !s'.gateOpen && s'.held == s.held
  {
    hide Core, Observe;
    var s1 := Note(s, Told(KeyLoadEnd(epoch, true)));
    ToldSilent(s, s.held, Waiting(s), KeyLoadEnd(epoch, true));
    ReadClockKeeps(s1, s.held, Waiting(s));
    CoreDependsOn(ReadClock(s1), Ended(s1), s.held, Waiting(s));
  }

  lemma DeliveredKeeps(s: Agent, payload: Payload)
    requires Inv(s) && s.load.Some?
    ensures Inv(s.(load := Some(s.load.value.(payload := Some(payload)))))
  {
    hide Core;
    CoreDependsOn(s, s.(load := Some(s.load.value.(payload := Some(payload)))), s.held, Waiting(s));
  }

  lemma LoadEndKeeps(s: Agent, epoch: nat, ok: bool)
    requires Inv(s) && s.handshake
    ensures Inv(OnControl(s, KeyLoadEnd(epoch, ok))) && Onward(OnControl(s, KeyLoadEnd(epoch, ok)), s)
  {
    hide Core, Observe, SettleLoad, CancelHeld, ReleaseListing;
    var s1 := Note(s, Told(KeyLoadEnd(epoch, ok)));
    var f := Waiting(s);
    ToldSilent(s, s.held, f, KeyLoadEnd(epoch, ok));
    if s.load.None? || s.load.value.epoch != epoch {
      CoreDependsOn(s1, s1.(phase := Failed), s.held, f);
    } else if !ok {
      LocksAreLater(s.store, epoch);
      LockStoreKeeps(s1, s.held, f, epoch);
      CancelKeeps(s1.(store := Lock(s.store, epoch), load := None, gateOpen := false), "load-failed");
    } else {
      EndedKeeps(s, epoch);
      SettleLoadKeeps(Ended(s1));
    }
  }

  lemma PayloadKeeps(s: Agent, epoch: nat, payload: Payload)
    requires Inv(s) && s.phase.Running?
    ensures Inv(OnPayload(s, epoch, payload)) && Onward(OnPayload(s, epoch, payload), s)
  {
    hide Core, SettleLoad;
    if s.load.Some? && s.load.value.epoch == epoch {
      DeliveredKeeps(s, payload);
      SettleLoadKeeps(s.(load := Some(s.load.value.(payload := Some(payload)))));
    }
  }

  // ---- the tick ----

  lemma WithdrawOneKeeps(s: Agent, h: map<RequestId, HeldSign>, f: set<Chan>, id: RequestId)
    requires Core(s, h, f)
    ensures var s1 := s.(approvals := Disconnect(s.approvals, id));
            var s2 := if id in s1.pending
                      then Reply(s1.(pending := s1.pending - {id}), s1.pending[id].chan, Failure) else s1;
            Core(Emit(s2, RequestCancelled(id, "withdrawn")), h, f)
  {
    hide Core;
    DenyPending(s, h, f, id);
    var s1 := s.(approvals := Disconnect(s.approvals, id));
    var s2 := if id in s1.pending then Reply(s1.(pending := s1.pending - {id}), s1.pending[id].chan, Failure) else s1;
    EmitNeutral(s2, h, f, RequestCancelled(id, "withdrawn"));
  }

  lemma {:induction false} WithdrawEachKeeps(s: Agent, h: map<RequestId, HeldSign>, f: set<Chan>, ids: seq<RequestId>)
    requires Core(s, h, f)
    ensures Core(WithdrawEach(s, ids), h, f)
    ensures Same(WithdrawEach(s, ids), s)
    ensures |WithdrawEach(s, ids).approvals.queue| <= |s.approvals.queue|
  {
    if ids != [] {
      hide Core;
      WithdrawEachKeeps(s, h, f, ids[..|ids| - 1]);
      WithdrawOneKeeps(WithdrawEach(s, ids[..|ids| - 1]), h, f, ids[|ids| - 1]);
    }
  }

  lemma DropOneKeeps(s: Agent, f: set<Chan>, id: RequestId)
    requires Core(s, s.held, f)
    ensures var s1 := if id in s.held then Reply(s.(held := s.held - {id}), s.held[id].chan, Failure) else s;
            Core(Emit(s1, RequestCancelled(id, "withdrawn")), s1.held, f) && |s1.held| <= |s.held|
  {
    hide Core;
    var s1 := if id in s.held then Reply(s.(held := s.held - {id}), s.held[id].chan, Failure) else s;
    if id in s.held {
      DenyHeld(s, s.held, f, id);
      CoreDependsOn(Reply(s, s.held[id].chan, Failure), s1, s1.held, f);
      SubsetSize((s.held - {id}).Keys, s.held.Keys);
    }
    EmitNeutral(s1, s1.held, f, RequestCancelled(id, "withdrawn"));
  }

  lemma {:induction false} DropEachKeeps(s: Agent, f: set<Chan>, ids: seq<RequestId>)
    requires Core(s, s.held, f)
    ensures var s' := DropEach(s, ids);
            && Core(s', s'.held, f) && |s'.held| <= |s.held| && (s.held == map[] ==> s'.held == map[])
            && Same(s', s.(held := s'.held)) && s'.approvals == s.approvals && s'.pending == s.pending
  {
    if ids != [] {
      hide Core;
      DropEachKeeps(s, f, ids[..|ids| - 1]);
      DropOneKeeps(DropEach(s, ids[..|ids| - 1]), f, ids[|ids| - 1]);
    }
  }

  lemma ExpireLoadKeeps(s: Agent, now: nat)
    requires Inv(s) && s.phase.Running?
    ensures Inv(ExpireLoad(s, now)) && ExpireLoad(s, now).phase.Running?
    ensures Onward(ExpireLoad(s, now), s)
    ensures !ExpireLoad(s, now).handshake ==> ExpireLoad(s, now) == s
  {
    hide Core, SettleLoad;
    if s.load.Some? && s.load.value.payload.None? && s.load.value.deadline.Some? && now >= s.load.value.deadline.value {
      DeliveredKeeps(s, ReadFailed);
      SettleLoadKeeps(s.(load := Some(s.load.value.(payload := Some(ReadFailed)))));
    }
  }

  lemma TickTables(s: Agent, closed: set<Chan>, now: nat)
    requires Inv(s)
    ensures var s1 := WithdrawEach(s, Ascending(ExpiredIds(s, closed)));
            var s2 := DropEach(s1, Ascending(StaleIds(s1, closed, now)));
            Inv(s2) && Onward(s2, s)
  {
    hide Core, WithdrawEach, DropEach, ExpiredIds, StaleIds, Ascending;
    var ids := Ascending(ExpiredIds(s, closed));
    WithdrawEachKeeps(s, s.held, Waiting(s), ids);
    var s1 := WithdrawEach(s, ids);
    DropEachKeeps(s1, Waiting(s), Ascending(StaleIds(s1, closed, now)));
  }

  lemma TickEnds(s: Agent, closed: set<Chan>, now: nat)
    requires Inv(s)
    ensures var s1 := if s.listing.Some? && ListingDone(s.listing.value, closed, now)
                      then ReleaseListing(s, "withdrawn") else s;
            Inv(EmitGrants(s1)) && Onward(EmitGrants(s1), s)
  {
    hide Core, ReleaseListing, ListingDone;
    ReleaseListingKeeps(s, s.held, "withdrawn");
    var s1 := if s.listing.Some? && ListingDone(s.listing.value, closed, now)
              then ReleaseListing(s, "withdrawn") else s;
    assert Inv(s1) && Onward(s1, s);
    EmitGrantsKeeps(s1);
  }

  lemma EmitGrantsKeeps(s1: Agent)
    requires Inv(s1)
    ensures Inv(EmitGrants(s1)) && Onward(EmitGrants(s1), s1)
  {
    hide Core;
    var s2 := s1.(snapshot := GrantIds(s1.approvals.grants));
    CoreDependsOn(s1, s2, s1.held, Waiting(s1));
    EmitNeutral(s2, s2.held, Waiting(s2), GrantsChanged(s1.approvals.grants));
  }

  lemma TickKeeps(s: Agent, closed: set<Chan>)
    requires Inv(s) && s.phase.Running?
    ensures Inv(OnTick(s, closed)) && Onward(OnTick(s, closed), s)
  {
    hide Core, ExpireLoad, WithdrawEach, DropEach, ExpiredIds, StaleIds, ReleaseListing, EmitGrants, Ascending,
         ListingDone;
    ExpiredKeeps(s, s.held, Waiting(s));
    var s1 := Expired(s);
    assert Inv(s1) && Onward(s1, s);
    hide Inv, Onward;
    var s2 := ExpireLoad(s1, Now(s));
    ExpireLoadKeeps(s1, Now(s));
    OnwardOn(s, s1, s2);
    TickTables(s2, closed, Now(s));
    var s3 := WithdrawEach(s2, Ascending(ExpiredIds(s2, closed)));
    var s4 := DropEach(s3, Ascending(StaleIds(s3, closed, Now(s))));
    OnwardOn(s, s2, s4);
    TickEnds(s4, closed, Now(s));
    OnwardOn(s, s4, OnTick(s, closed));
  }

  // ---- every event, every run ----

  /** The panel says `hello` before anything else. */
  predicate Polite(s: Agent, e: Event) {
    !s.handshake && e.FromPanel? ==> e.control.Hello?
  }

  lemma ControlKeeps(s: Agent, c: Control)
    requires Inv(s) && s.phase.Running? && (!s.handshake ==> c.Hello?)
    ensures Inv(OnControl(s, c)) && Onward(OnControl(s, c), s)
  {
    hide Inv, OnControl;
    match c
    case Hello => HelloKeeps(s);
    case VaultLocked(epoch) => LockKeeps(s, epoch);
    case VaultLoggedOut => LogoutKeeps(s);
    case ApproveRequest(id, d) => ApproveKeeps(s, id, d);
    case Deny(_) => DenyKeeps(s, c);
    case UnlockCancelled(_) => DenyKeeps(s, c);
    case Options(on) => OptionsKeeps(s, on);
    case RevokeGrants => RevokeAllKeeps(s);
    case RevokeOne(g) => RevokeOneKeeps(s, g);
    case Shutdown => ShutdownKeeps(s);
    case KeyLoadBegin(epoch, loadId) => LoadBeginKeeps(s, epoch, loadId);
    case KeyLoadEnd(epoch, ok) => LoadEndKeeps(s, epoch, ok);
  }

  lemma ShutdownKeeps(s: Agent)
    requires Inv(s)
    ensures Inv(OnControl(s, Shutdown)) && Onward(OnControl(s, Shutdown), s)
    ensures OnControl(s, Shutdown) == Finish(Note(s, Told(Shutdown)))
    ensures Inv(Note(s, Told(Shutdown)))
  {
    hide Core, Finish;
    ToldSilent(s, s.held, Waiting(s), Shutdown);
    FinishKeeps(Note(s, Told(Shutdown)));
  }

  lemma StepKeeps(s: Agent, e: Event)
    requires Inv(s) && Polite(s, e)
    ensures Inv(Step(s, e)) && Onward(Step(s, e), s)
  {
    if s.phase.Running? {
      match e
      case FromPanel(c) => ControlKeeps(s, c);
      case PanelClosed => ShutdownKeeps(s);
      case PanelGarbled =>
        hide Core;
        CoreDependsOn(s, s.(phase := Failed), s.held, Waiting(s));
      case FromClient(c) => ClientKeeps(s, c);
      case FromFifo(epoch, payload) => PayloadKeeps(s, epoch, payload);
      case Tick(closed) => TickKeeps(s, closed);
    }
  }
}
