/** Where the loaded keys come from: every key in the store is that of an item in a payload
    the FIFO delivered, and of one that passed every check. */
module AgentSources {
  import opened Base
  import opened KeyStoreModel
  import opened FifoModel
  import opened ApprovalModel
  import opened ObserverModel
  import opened AgentModel
  import opened AgentSends
  import opened AgentTrace
  import opened AgentSafety
  import opened AgentListings

  /** The key at this place was made of this item. */
  ghost predicate MadeOf(public: seq<PublicIdentity>, private: seq<PrivateIdentity>, i: nat, item: Item)
    requires i < |public|
  {
    && IdentityOf(public[i], item)
    && (i < |private| ==> private[i].key == item.pem.key)
  }

  /** Each key was made of one of these items. */
  ghost predicate MadeFrom(public: seq<PublicIdentity>, private: seq<PrivateIdentity>, items: seq<Item>) {
    forall i | 0 <= i < |public| :: MadeOfOne(public, private, i, items)
  }

  ghost predicate MadeOfOne(public: seq<PublicIdentity>, private: seq<PrivateIdentity>, i: nat, items: seq<Item>)
    requires i < |public|
  {
    exists item :: item in items && MadeOf(public, private, i, item)
  }

  lemma {:induction false} AddAllMakes(c: Candidate, items: seq<Item>, all: seq<Item>)
    requires ValidCandidate(c) && MadeFrom(c.public, c.private, all) && forall item | item in items :: item in all
    ensures var c' := AddAll(c, items).0; MadeFrom(c'.public, c'.private, all)
    decreases |items|
  {
    hide IdentityOf, KeyStoreModel.Add, ValidCandidate;
    if items != [] {
      var item := items[0];
      var (c1, r) := KeyStoreModel.Add(c, item);
      AddKeepsCandidate(c, item);
      AddMakes(c, item, all);
      if !r.Refused? { AddAllMakes(c1, items[1..], all); }
    }
  }

  lemma AddMakes(c: Candidate, item: Item, all: seq<Item>)
    requires ValidCandidate(c) && MadeFrom(c.public, c.private, all) && item in all
    ensures var c' := KeyStoreModel.Add(c, item).0; MadeFrom(c'.public, c'.private, all)
  {
    hide IdentityOf, KeyStoreModel.Add, WithinLimits, Loadable, SkippedFor;
    AddExact(c, item);
    var (c', r) := KeyStoreModel.Add(c, item);
    if r.Added? {
      forall i | 0 <= i < |c'.public| ensures MadeOfOne(c'.public, c'.private, i, all) {
        if i < |c.public| {
          assert c'.public[i] == c'.public[..|c.public|][i] == c.public[i];
          assert MadeOfOne(c.public, c.private, i, all);
          var x :| x in all && MadeOf(c.public, c.private, i, x);
          assert MadeOf(c'.public, c'.private, i, x);
        } else {
          assert MadeOf(c'.public, c'.private, i, item);
        }
      }
    }
  }

  /** A published load was made of the items of its payload, and carried its nonce. */
  lemma LoadIntoMakes(store: Store, load: ActiveLoad)
    requires load.payload.Some? && LoadInto(store, load).1
    ensures load.payload.value.Bytes? && load.payload.value.envelope.Some?
    ensures var envelope := load.payload.value.envelope.value;
            var store' := LoadInto(store, load).0;
            envelope.0 == load.nonce && MadeFrom(store'.public, store'.private, envelope.1)
  {
    hide ValidNonce, MadeFrom, AddAll;
    var envelope := load.payload.value.envelope.value;
    var c := Candidate(load.epoch, 0, false, [], [], []);
    NothingMade(c, envelope.1);
    AddAllMakes(c, envelope.1, envelope.1);
  }

  lemma NothingMade(c: Candidate, items: seq<Item>)
    requires c.public == [] && c.private == []
    ensures ValidCandidate(c) && MadeFrom(c.public, c.private, items)
  {
  }

  // ---- over runs ----

  /** The FIFO delivered this payload for this epoch. */
  ghost predicate DeliveredBy(events: seq<Event>, epoch: nat, payload: Payload) {
    FromFifo(epoch, payload) in events
  }

  /** One delivered payload has the items these keys were made of. */
  ghost predicate Sourced(events: seq<Event>, store: Store) {
    store.public != [] ==>
      exists epoch, payload :: && DeliveredBy(events, epoch, payload)
        && payload.Bytes? && payload.envelope.Some?
        && MadeFrom(store.public, store.private, payload.envelope.value.1)
  }

  /** The payload of the load under way is one the FIFO delivered. */
  ghost predicate LoadSourced(events: seq<Event>, s: Agent) {
    s.load.Some? && s.load.value.payload.Some? && s.load.value.payload.value.Bytes? ==>
      DeliveredBy(events, s.load.value.epoch, s.load.value.payload.value)
  }

  ghost predicate AllSourced(events: seq<Event>, s: Agent) {
    Sourced(events, s.store) && LoadSourced(events, s)
  }

  lemma MoreEvents(events: seq<Event>, e: Event, s: Agent)
    requires AllSourced(events, s)
    ensures AllSourced(events + [e], s)
  {
    hide MadeFrom;
    if s.store.public != [] {
      var epoch, payload :| && DeliveredBy(events, epoch, payload)
        && payload.Bytes? && payload.envelope.Some?
        && MadeFrom(s.store.public, s.store.private, payload.envelope.value.1);
      assert DeliveredBy(events + [e], epoch, payload);
    }
  }

  /** The same keys, or the same without the private ones, or none. */
  ghost predicate NoNewKeys(store': Store, store: Store) {
    || store'.public == []
    || (store'.public == store.public && (store'.private == store.private || store'.private == []))
  }

  lemma NoNewSourced(events: seq<Event>, store': Store, store: Store)
    requires Sourced(events, store) && NoNewKeys(store', store)
    ensures Sourced(events, store')
  {
    hide IdentityOf;
    if store'.public != [] {
      var epoch, payload :| && DeliveredBy(events, epoch, payload)
        && payload.Bytes? && payload.envelope.Some?
        && MadeFrom(store.public, store.private, payload.envelope.value.1);
      FewerMade(store.public, store.private, store'.private, payload.envelope.value.1);
    }
  }

  lemma FewerMade(public: seq<PublicIdentity>, private: seq<PrivateIdentity>, private': seq<PrivateIdentity>,
                  items: seq<Item>)
    requires MadeFrom(public, private, items) && (private' == private || private' == [])
    ensures MadeFrom(public, private', items)
  {
    hide IdentityOf;
    forall i | 0 <= i < |public| ensures MadeOfOne(public, private', i, items) {
      assert MadeOfOne(public, private, i, items);
      var item :| item in items && MadeOf(public, private, i, item);
      assert MadeOf(public, private', i, item);
    }
  }

  lemma FinishLoadSourced(events: seq<Event>, s: Agent)
    requires AllSourced(events, s)
    ensures AllSourced(events, FinishLoad(s).0)
  {
    hide LoadInto, AnnounceEach, MadeFrom;
    if s.load.Some? && s.load.value.ended && s.load.value.payload.Some? {
      var load := s.load.value;
      var (store, ok) := LoadInto(s.store, load);
      var s1 := s.(load := None, store := store, gateOpen := true);
      AnnounceSends(s1, load.epoch, store.public);
      if ok {
        LoadIntoMakes(s.store, load);
        assert DeliveredBy(events, load.epoch, load.payload.value);
      } else {
        LoadIntoPublic(s.store, load);
        NoNewSourced(events, Lock(store, load.epoch), s.store);
      }
    }
  }

  lemma SettleLoadSourced(events: seq<Event>, s: Agent)
    requires AllSourced(events, s)
    ensures AllSourced(events, SettleLoad(s))
  {
    hide AllSourced, FinishLoad, ReleaseHeld, CancelHeld, ReleaseListing, Sent, Refusals;
    FinishLoadSourced(events, s);
    var (s1, outcome) := FinishLoad(s);
    FinishLoadEnds(s);
    match outcome
    case StillLoading =>
    case Published =>
      ReleaseHeldQuiet(s1);
      ReleaseListingQuiet(ReleaseHeld(s1), "released");
      ReleaseHeldLoad(s1);
      ReleaseListingSends(ReleaseHeld(s1), "released");
      SameSources(events, s1, SettleLoad(s));
    case LoadRefused =>
      CancelQuiet(s1, "load-failed");
      CancelSends(s1, "load-failed");
      SameSources(events, s1, SettleLoad(s));
  }

  lemma FinishLoadEnds(s: Agent)
    ensures FinishLoad(s).1 != StillLoading ==> FinishLoad(s).0.load.None?
  {
    hide LoadInto, AnnounceEach;
    if s.load.Some? && s.load.value.payload.Some? {
      var (store, ok) := LoadInto(s.store, s.load.value);
      AnnounceSends(s.(load := None, store := store, gateOpen := true), s.load.value.epoch, store.public);
    }
  }

  lemma SameSources(events: seq<Event>, s: Agent, s': Agent)
    requires AllSourced(events, s) && s'.store == s.store && s'.load == s.load
    ensures AllSourced(events, s')
  {
  }

  // ---- nothing else touches the load ----

  lemma SubmitLoad(s: Agent, chan: Chan, blob: Blob, message: seq<byte>, flags: nat, peer: Peer, scope: SignScope)
    ensures SubmitSign(s, chan, blob, message, flags, peer, scope).load == s.load
  {
    hide Submit, FindPublic, AuthorizedSignature, Disconnect;
  }

  lemma SubmitApprovedLoad(s: Agent, h: HeldSign, d: GrantDuration)
    ensures SubmitApproved(s, h, d).load == s.load
  {
    hide Submit, Approve, AuthorizedSignature;
  }

  lemma ReleaseOneLoad(s: Agent, id: RequestId, h: HeldSign)
    ensures ReleaseOne(s, id, h).load == s.load
  {
    hide SubmitSign, SubmitApproved, Authorize;
    var s1 := Emit(s, RequestCancelled(id, "released"));
    SubmitLoad(s1, h.chan, h.blob, h.message, h.flags, h.peer, h.scope);
    if h.approved.Some? { SubmitApprovedLoad(s1, h, h.approved.value); }
  }

  lemma {:induction false} ReleaseEachLoad(s: Agent, held: map<RequestId, HeldSign>, ids: seq<RequestId>)
    requires forall id | id in ids :: id in held
    ensures ReleaseEach(s, held, ids).load == s.load
  {
    hide ReleaseOne;
    if ids != [] {
      var front, id := ids[..|ids| - 1], ids[|ids| - 1];
      ReleaseEachLoad(s, held, front);
      ReleaseOneLoad(ReleaseEach(s, held, front), id, held[id]);
    }
  }

  lemma SettleGrantedLoad(s: Agent)
    ensures SettleGranted(s).load == s.load
  {
    hide ReleaseGranted, SettleEach, Sent, Refusals;
    var (m, released) := ReleaseGranted(s.approvals, Now(s));
    SettleEachSends(ReadClock(s).(approvals := m), released);
  }

  lemma ReleaseHeldLoad(s: Agent)
    ensures ReleaseHeld(s).load == s.load
  {
    hide ReleaseEach, SettleGranted;
    var s0 := s.(held := map[]);
    ReleaseEachLoad(s0, s.held, Ascending(s.held.Keys));
    SettleGrantedLoad(ReleaseEach(s0, s.held, Ascending(s.held.Keys)));
  }

  lemma ClientLoad(s: Agent, c: Client)
    ensures HandleClient(s, c).load == s.load
  {
    hide SubmitSign, Authorize, FindPublic, ListKeys, Reserve;
    var s1 := Note(s.(nextChan := s.nextChan + 1), Delivered(s.nextChan, c));
    if c.request.SignData? {
      SubmitLoad(s1, s.nextChan, c.request.blob, c.request.message, c.request.flags, c.peer, Scope(c));
    }
  }

  lemma ApproveLoad(s: Agent, id: RequestId, d: GrantDuration)
    ensures OnApprove(s, id, d).load == s.load
  {
    hide SettleGranted, Approve, AuthorizedSignature;
    if id !in s.held && id in s.pending {
      var sign := s.pending[id];
      var (s1, a) := ApproveQueued(s.(pending := s.pending - {id}), id, sign.chan, d);
      SettleGrantedLoad(Answer(s1, sign.chan, a, sign.message, sign.flags));
    }
  }

  lemma DenyLoad(s: Agent, id: RequestId)
    ensures OnDeny(s, id).load == s.load
  {
    hide ReleaseListing, Disconnect, Sent, Refusals;
    ReleaseListingSends(Denied(s, id), "cancelled");
  }

  lemma TickEndLoad(s: Agent, closed: set<Chan>, now: nat)
    ensures EmitGrants(Relisted(Dropped(Withdrawn(s, closed), closed, now), closed, now)).load == s.load
  {
    hide WithdrawEach, DropEach, ReleaseListing, ListingDone, ExpiredIds, StaleIds, Sent, Refusals, GrantIds;
    WithdrawEachSends(s, Ascending(ExpiredIds(s, closed)));
    DroppedSends(Withdrawn(s, closed), closed, now);
    ReleaseListingSends(Dropped(Withdrawn(s, closed), closed, now), "withdrawn");
  }

  // ---- one event ----

  lemma LockSourced(events: seq<Event>, s: Agent, store: Store)
    requires AllSourced(events, s) && NoNewKeys(store, s.store)
    ensures AllSourced(events, s.(store := store, load := None))
  {
    hide MadeFrom;
    NoNewSourced(events, store, s.store);
  }

  lemma DeactivateSourced(events: seq<Event>, s: Agent, store: Store, reason: string)
    requires AllSourced(events, s) && NoNewKeys(store, s.store)
    ensures AllSourced(events, Deactivate(s, store, reason))
  {
    hide AllSourced, NoNewKeys, FailPending, CancelHeld, ReleaseListing, Sent, Refusals;
    var s1 := s.(gateOpen := false, load := None, store := store, approvals := InvalidateAll(s.approvals));
    LockSourced(events, s, store);
    SameSources(events, s.(store := store, load := None), s1);
    DrainSends(s1, reason);
    SameSources(events, s1, Deactivate(s, store, reason));
  }

  lemma FinishSourced(events: seq<Event>, s: Agent)
    requires AllSourced(events, s)
    ensures AllSourced(events, Finish(s))
  {
    hide FailPending, CancelHeld, ReleaseListing, Sent, Refusals;
    DrainSends(s.(approvals := InvalidateAll(s.approvals), load := None), "shutdown");
  }

  lemma LoadBeginSourced(events: seq<Event>, s: Agent, epoch: nat, loadId: seq<byte>)
    requires AllSourced(events, s)
    ensures AllSourced(events, OnLoadBegin(s, epoch, loadId))
  {
    hide FailPending, Sent, Refusals, ValidNonce;
    FailPendingSends(s.(gateOpen := false, approvals := InvalidateAll(s.approvals)));
  }

  lemma LoadEndSourced(events: seq<Event>, s: Agent, epoch: nat, ok: bool)
    requires AllSourced(events, s)
    ensures AllSourced(events, OnLoadEnd(s, epoch, ok))
  {
    hide Sourced, SettleLoad, CancelHeld, ReleaseListing, Sent, Refusals;
    if s.load.Some? && s.load.value.epoch == epoch {
      if ok {
        SettleLoadSourced(events, Ended(s));
      } else {
        var s1 := s.(load := None, store := Lock(s.store, epoch), gateOpen := false);
        LockSourced(events, s, Lock(s.store, epoch));
        CancelSends(s1, "load-failed");
      }
    }
  }

  lemma ControlSourced(events: seq<Event>, s: Agent, c: Control)
    requires AllSourced(events, s)
    ensures AllSourced(events, OnControl(s, c))
  {
    hide Sourced, Deactivate, Finish, OnApprove, OnDeny, OnLoadBegin, OnLoadEnd, Quiet;
    var s1 := Note(s, Told(c));
    match c
    case Hello =>
    case Options(_) =>
    case RevokeGrants =>
    case RevokeOne(_) =>
    case VaultLocked(epoch) => DeactivateSourced(events, s1, Lock(s.store, epoch), "locked");
    case VaultLoggedOut =>
      DeactivateSourced(events, s1, Logout(s.store, SatAdd(s.store.tracker.epoch, 1)), "logged-out");
    case ApproveRequest(id, d) =>
      ApproveQuiet(s1, id, d);
      ApproveLoad(s1, id, d);
      KeepsBoth(events, s1, OnApprove(s1, id, d));
    case Deny(id) =>
      DenyQuiet(s1, id);
      DenyLoad(s1, id);
      KeepsBoth(events, s1, OnDeny(s1, id));
    case UnlockCancelled(id) =>
      DenyQuiet(s1, id);
      DenyLoad(s1, id);
      KeepsBoth(events, s1, OnDeny(s1, id));
    case Shutdown => FinishSourced(events, s1);
    case KeyLoadBegin(epoch, loadId) => LoadBeginSourced(events, s1, epoch, loadId);
    case KeyLoadEnd(epoch, ok) => LoadEndSourced(events, s1, epoch, ok);
  }

  lemma KeepsBoth(events: seq<Event>, s: Agent, s': Agent)
    requires AllSourced(events, s) && Quiet(s', s) && s'.load == s.load
    ensures AllSourced(events, s')
  {
  }

  lemma TickSourced(events: seq<Event>, s: Agent, closed: set<Chan>)
    requires AllSourced(events, s)
    ensures AllSourced(events, OnTick(s, closed))
  {
    hide AllSourced, Quiet, ExpireLoad, Withdrawn, Dropped, Relisted, EmitGrants, OnTick;
    var now := Now(s);
    var s1 := ReadClock(s).(approvals := Expire(s.approvals, now));
    SameSources(events, s, s1);
    ExpireSourced(events, s1, now);
    var s2 := ExpireLoad(s1, now);
    TickEndQuiet(s2, closed, now);
    TickEndLoad(s2, closed, now);
    TickStages(s, closed);
    KeepsBoth(events, s2, OnTick(s, closed));
  }

  lemma ExpireSourced(events: seq<Event>, s: Agent, now: nat)
    requires AllSourced(events, s)
    ensures AllSourced(events, ExpireLoad(s, now))
  {
    hide Sourced, SettleLoad;
    if s.load.Some? && s.load.value.payload.None? {
      SettleLoadSourced(events, s.(load := Some(s.load.value.(payload := Some(ReadFailed)))));
    }
  }

  lemma StepSourced(events: seq<Event>, s: Agent, e: Event)
    requires AllSourced(events, s)
    ensures AllSourced(events + [e], Step(s, e))
  {
    hide Sourced, OnControl, Finish, HandleClient, SettleLoad, OnTick, Quiet;
    var more := events + [e];
    MoreEvents(events, e, s);
    match e
    case FromPanel(c) => ControlSourced(more, s, c);
    case PanelClosed => FinishSourced(more, Note(s, Told(Shutdown)));
    case PanelGarbled =>
    case FromClient(c) =>
      ClientQuiet(s, c);
      ClientLoad(s, c);
      KeepsBoth(more, s, HandleClient(s, c));
    case FromFifo(epoch, payload) =>
      if s.load.Some? && s.load.value.epoch == epoch {
        assert DeliveredBy(more, epoch, payload);
        SettleLoadSourced(more, s.(load := Some(s.load.value.(payload := Some(payload)))));
      }
    case Tick(closed) => TickSourced(more, s, closed);
  }

  lemma {:induction false} AlwaysSourced(uid: nat, clock: nat -> nat, events: seq<Event>)
    ensures AllSourced(events, Run(Init(uid, clock), events))
  {
    hide Step;
    if events != [] {
      var front, e := events[..|events| - 1], events[|events| - 1];
      AlwaysSourced(uid, clock, front);
      StepSourced(front, Run(Init(uid, clock), front), e);
      assert events == front + [e];
    }
  }

  /** At every point of every run, each key in the store was made of an item of one payload
      that the FIFO delivered: an item that wants no reprompt, whose private key reads, whose
      public key and fingerprint are that key's own; and the identity shows that item's id
      and name. */
  lemma KeysCameFrom(uid: nat, clock: nat -> nat, events: seq<Event>, i: nat)
    requires i < |Run(Init(uid, clock), events).store.public|
    ensures var store := Run(Init(uid, clock), events).store;
            exists j, item ::
              && 0 <= j < |events| && events[j].FromFifo? && events[j].payload.Bytes?
              && events[j].payload.envelope.Some? && item in events[j].payload.envelope.value.1
              && !item.reprompt && item.pem.Parsed? && item.metadata == Some(item.pem.key.blob)
              && item.pem.key.blob == Some(store.public[i].blob)
              && item.fingerprint == item.pem.key.fingerprint == store.public[i].fingerprint
              && store.public[i].itemId == item.itemId && store.public[i].name <= item.name
              && (i < |store.private| ==> store.private[i].key == item.pem.key)
  {
    AlwaysSourced(uid, clock, events);
    var store := Run(Init(uid, clock), events).store;
    hide Run;
    var epoch, payload :| && DeliveredBy(events, epoch, payload)
      && payload.Bytes? && payload.envelope.Some?
      && MadeFrom(store.public, store.private, payload.envelope.value.1);
    var j :| 0 <= j < |events| && events[j] == FromFifo(epoch, payload);
    assert MadeOfOne(store.public, store.private, i, payload.envelope.value.1);
    var item :| item in payload.envelope.value.1 && MadeOf(store.public, store.private, i, item);
    assert item in events[j].payload.envelope.value.1;
  }
}
