/** Which keys the store has at every point of a run, and what clients are told of them. */
module AgentListings {
  import opened Base
  import opened KeyStoreModel
  import opened FifoModel
  import opened ObserverModel
  import opened AgentModel
  import opened AgentSends
  import opened AgentTrace
  import opened AgentSafety
  import opened AgentTheorems

  // ---- what the log says is listed ----

  /** The keys announced since the last load was published. */
  function Announced(log: Log): seq<(Blob, seq<byte>)> {
    if log.Empty? then []
    else
      match log.last
      case Emitted(PublicKey(_, identity)) => Announced(log.past) + [(identity.blob, identity.name)]
      case Emitted(KeysLoaded(_, _)) => []
      case _ => Announced(log.past)
  }

  /** The keys of the latest published load, in the order they were announced, and none
      after a logout. */
  function Listed(log: Log): seq<(Blob, seq<byte>)> {
    if log.Empty? then []
    else
      match log.last
      case Emitted(KeysLoaded(_, _)) => Announced(log.past)
      case Told(VaultLoggedOut) => []
      case _ => Listed(log.past)
  }

  /** Every listing ever replied was the one to give. */
  predicate ListingsTrue(log: Log) {
    log.Then? ==>
      && ListingsTrue(log.past)
      && (log.last.Replied? && log.last.response.Listing? ==> log.last.response.keys == Listed(log.past))
  }

  lemma {:induction false} ListingsTrueAt(log: Log, past: Log, chan: Chan, keys: seq<(Blob, seq<byte>)>)
    requires ListingsTrue(log) && Extends(log, Then(past, Replied(chan, Listing(keys))))
    ensures keys == Listed(past)
  {
    if log != Then(past, Replied(chan, Listing(keys))) { ListingsTrueAt(log.past, past, chan, keys); }
  }

  /** The log so far, and the keys it has told of. */
  ghost predicate TellsOf(log: Log, keys: seq<(Blob, seq<byte>)>) {
    Announced(log) == [] && Listed(log) == keys && ListingsTrue(log)
  }

  lemma {:induction false} AddsTell(log': Log, log: Log, keys: seq<(Blob, seq<byte>)>)
    requires Adds(log', log, keys) && TellsOf(log, keys)
    ensures TellsOf(log', keys)
  {
    if log' != log { AddsTell(log'.past, log, keys); }
  }

  ghost predicate KeysTold(s: Agent) {
    TellsOf(s.log, Names(s.store.public))
  }

  lemma QuietTells(s': Agent, s: Agent)
    requires Quiet(s', s) && KeysTold(s)
    ensures KeysTold(s')
  {
    AddsTell(s'.log, s.log, Names(s.store.public));
  }

  lemma {:induction false} AnnounceTells(s: Agent, epoch: nat, public: seq<PublicIdentity>)
    requires Announced(s.log) == [] && ListingsTrue(s.log)
    ensures var s' := AnnounceEach(s, epoch, public);
            Announced(s'.log) == Names(public) && ListingsTrue(s'.log)
  {
    if public != [] {
      AnnounceTells(s, epoch, public[..|public| - 1]);
      assert Names(public) == Names(public[..|public| - 1]) + [(public[|public| - 1].blob, public[|public| - 1].name)];
    }
  }

  lemma PublishTells(s: Agent, epoch: nat, public: seq<PublicIdentity>, count: nat)
    requires Announced(s.log) == [] && ListingsTrue(s.log)
    ensures TellsOf(Emit(AnnounceEach(s, epoch, public), KeysLoaded(epoch, count)).log, Names(public))
  {
    AnnounceTells(s, epoch, public);
  }

  lemma FinishLoadTells(s: Agent)
    requires KeysTold(s)
    ensures KeysTold(FinishLoad(s).0)
  {
    hide LoadInto, AnnounceEach;
    if s.load.Some? && s.load.value.ended && s.load.value.payload.Some? {
      var load := s.load.value;
      var (store, ok) := LoadInto(s.store, load);
      LoadIntoPublic(s.store, load);
      if ok {
        var s1 := s.(load := None, store := store, gateOpen := true);
        PublishTells(s1, load.epoch, store.public, |store.private|);
        AnnounceSends(s1, load.epoch, store.public);
      }
    }
  }

  lemma LoadIntoPublic(store: Store, load: ActiveLoad)
    requires load.payload.Some?
    ensures !LoadInto(store, load).1 ==> LoadInto(store, load).0.public == store.public
  {
    hide AddAll, ValidNonce;
  }

  lemma SettleLoadTells(s: Agent)
    requires KeysTold(s)
    ensures KeysTold(SettleLoad(s))
  {
    hide KeysTold, FinishLoad, ReleaseHeld, CancelHeld, ReleaseListing, Quiet;
    FinishLoadTells(s);
    var (s1, outcome) := FinishLoad(s);
    match outcome
    case StillLoading =>
    case Published =>
      ReleaseHeldQuiet(s1);
      ReleaseListingQuiet(ReleaseHeld(s1), "released");
      QuietOn(SettleLoad(s), ReleaseHeld(s1), s1);
      QuietTells(SettleLoad(s), s1);
    case LoadRefused =>
      CancelQuiet(s1, "load-failed");
      QuietTells(SettleLoad(s), s1);
  }

  lemma DeactivateTells(s: Agent, store: Store, reason: string)
    requires KeysTold(s.(store := store))
    ensures KeysTold(Deactivate(s, store, reason))
  {
    hide Quiet, FailPending, CancelHeld, ReleaseListing;
    var s1 := s.(gateOpen := false, load := None, store := store,
                 approvals := ApprovalModel.InvalidateAll(s.approvals));
    DrainQuiet(s1, reason);
    QuietTells(Deactivate(s, store, reason), s1);
  }

  lemma FinishTells(s: Agent)
    requires KeysTold(s)
    ensures ListingsTrue(Finish(s).log)
  {
    hide Quiet, FailPending, CancelHeld, ReleaseListing;
    var s1 := s.(approvals := ApprovalModel.InvalidateAll(s.approvals), load := None);
    DrainQuiet(s1, "shutdown");
    QuietTells(ReleaseListing(CancelHeld(FailPending(s1), "shutdown"), "shutdown"), s1);
  }

  /** Hearing a message that is no logout tells of no other keys; locking keeps the public ones. */
  lemma HeardTells(s: Agent, c: Control, epoch: nat)
    requires KeysTold(s)
    ensures !c.VaultLoggedOut? ==>
              KeysTold(Note(s, Told(c))) && KeysTold(Note(s, Told(c)).(store := Lock(s.store, epoch)))
    ensures c.VaultLoggedOut? ==> KeysTold(Note(s, Told(c)).(store := Logout(s.store, epoch)))
  {
  }

  lemma LoadBeginTells(s: Agent, epoch: nat, loadId: seq<byte>)
    requires KeysTold(s)
    ensures KeysTold(OnLoadBegin(s, epoch, loadId))
  {
    hide KeysTold, Quiet, FailPending, ValidNonce;
    var s1 := s.(gateOpen := false, approvals := ApprovalModel.InvalidateAll(s.approvals));
    FailPendingQuiet(s1);
    SameKeysTold(s, s1);
    QuietTells(FailPending(s1), s1);
    SameKeysTold(s, OnLoadBegin(s, epoch, loadId));
    SameKeysTold(FailPending(s1), OnLoadBegin(s, epoch, loadId));
  }

  lemma SameKeysTold(s: Agent, s': Agent)
    ensures KeysTold(s) && s'.log == s.log && s'.store == s.store ==> KeysTold(s')
  {
  }

  lemma LoadEndTells(s: Agent, epoch: nat, ok: bool)
    requires KeysTold(s) && KeysTold(s.(store := Lock(s.store, epoch)))
    ensures KeysTold(OnLoadEnd(s, epoch, ok))
  {
    hide Quiet, SettleLoad, CancelHeld, ReleaseListing;
    if s.load.Some? && s.load.value.epoch == epoch {
      if ok {
        ReadQuiet(s);
        QuietTells(ReadClock(s), s);
        SettleLoadTells(Ended(s));
      } else {
        var s1 := s.(load := None, store := Lock(s.store, epoch), gateOpen := false);
        CancelQuiet(s1, "load-failed");
        QuietTells(OnLoadEnd(s, epoch, ok), s1);
      }
    }
  }

  lemma ControlTells(s: Agent, c: Control)
    requires KeysTold(s)
    ensures ListingsTrue(OnControl(s, c).log) && (!c.Shutdown? ==> KeysTold(OnControl(s, c)))
  {
    hide Quiet, Deactivate, Finish, OnApprove, OnDeny, OnLoadBegin, OnLoadEnd;
    var s1 := Note(s, Told(c));
    HeardTells(s, c, if c.VaultLocked? || c.KeyLoadEnd? then c.epoch else SatAdd(s.store.tracker.epoch, 1));
    match c
    case Hello =>
    case Options(_) =>
    case RevokeGrants =>
    case RevokeOne(_) =>
    case VaultLocked(epoch) => DeactivateTells(s1, Lock(s.store, epoch), "locked");
    case VaultLoggedOut => DeactivateTells(s1, Logout(s.store, SatAdd(s.store.tracker.epoch, 1)), "logged-out");
    case ApproveRequest(id, d) =>
      ApproveQuiet(s1, id, d);
      QuietTells(OnControl(s, c), s1);
    case Deny(id) =>
      DenyQuiet(s1, id);
      QuietTells(OnControl(s, c), s1);
    case UnlockCancelled(id) =>
      DenyQuiet(s1, id);
      QuietTells(OnControl(s, c), s1);
    case Shutdown => FinishTells(s1);
    case KeyLoadBegin(epoch, loadId) => LoadBeginTells(s1, epoch, loadId);
    case KeyLoadEnd(epoch, ok) => LoadEndTells(s1, epoch, ok);
  }

  lemma TickTells(s: Agent, closed: set<Chan>)
    requires KeysTold(s)
    ensures KeysTold(OnTick(s, closed))
  {
    hide KeysTold, Quiet, ExpireLoad, Withdrawn, Dropped, Relisted, EmitGrants, OnTick;
    var now := Now(s);
    ReadQuiet(s);
    QuietTells(ReadClock(s), s);
    var s1 := ReadClock(s).(approvals := ApprovalModel.Expire(s.approvals, now));
    SameKeysTold(ReadClock(s), s1);
    ExpireLoadTells(s1, now);
    TickEndQuiet(ExpireLoad(s1, now), closed, now);
    TickStages(s, closed);
    QuietTells(OnTick(s, closed), ExpireLoad(s1, now));
  }

  lemma ExpireLoadTells(s: Agent, now: nat)
    requires KeysTold(s)
    ensures KeysTold(ExpireLoad(s, now))
  {
    hide SettleLoad;
    if s.load.Some? { SettleLoadTells(s.(load := Some(s.load.value.(payload := Some(ReadFailed))))); }
  }

  lemma StepTells(s: Agent, e: Event)
    requires KeysTold(s)
    ensures ListingsTrue(Step(s, e).log) && (!Step(s, e).phase.Stopped? ==> KeysTold(Step(s, e)))
  {
    hide Quiet, OnControl, Finish, HandleClient, SettleLoad, OnTick;
    match e
    case FromPanel(c) =>
      ControlTells(s, c);
      if c.Shutdown? { ShutdownStops(s); }
    case PanelClosed =>
      HeardTells(s, Shutdown, 0);
      FinishTells(Note(s, Told(Shutdown)));
      FinishStops(Note(s, Told(Shutdown)));
    case PanelGarbled =>
    case FromClient(c) =>
      ClientQuiet(s, c);
      QuietTells(HandleClient(s, c), s);
    case FromFifo(epoch, payload) =>
      if s.load.Some? { SettleLoadTells(s.(load := Some(s.load.value.(payload := Some(payload))))); }
    case Tick(closed) => TickTells(s, closed);
  }

  lemma ShutdownStops(s: Agent)
    ensures OnControl(s, Shutdown).phase.Stopped?
  {
    hide FailPending, CancelHeld, ReleaseListing;
  }

  lemma FinishStops(s: Agent)
    ensures Finish(s).phase.Stopped?
  {
    hide FailPending, CancelHeld, ReleaseListing;
  }

  lemma {:induction false} AlwaysTold(uid: nat, clock: nat -> nat, events: seq<Event>)
    ensures var s := Run(Init(uid, clock), events);
            ListingsTrue(s.log) && (!s.phase.Stopped? ==> KeysTold(s))
  {
    hide Step;
    if events != [] {
      var front, e := events[..|events| - 1], events[|events| - 1];
      AlwaysTold(uid, clock, front);
      var s := Run(Init(uid, clock), front);
      if s.phase.Stopped? { StoppedStays(s, e); } else { StepTells(s, e); }
    }
  }

  /** Every listing a client ever gets names exactly the keys of the latest published load,
      blob by blob with its name, in the order they were announced, and none after a logout. */
  lemma ListingsAreTrue(uid: nat, clock: nat -> nat, events: seq<Event>, past: Log, chan: Chan,
                        keys: seq<(Blob, seq<byte>)>)
    requires Extends(Run(Init(uid, clock), events).log, Then(past, Replied(chan, Listing(keys))))
    ensures keys == Listed(past)
  {
    AlwaysTold(uid, clock, events);
    ListingsTrueAt(Run(Init(uid, clock), events).log, past, chan, keys);
  }

  /** And until the agent stops those are exactly the store's public identities. */
  lemma StoreIsListed(uid: nat, clock: nat -> nat, events: seq<Event>)
    requires !Run(Init(uid, clock), events).phase.Stopped?
    ensures var s := Run(Init(uid, clock), events);
            && |Listed(s.log)| == |s.store.public|
            && forall i | 0 <= i < |s.store.public| ::
                 Listed(s.log)[i].0 == s.store.public[i].blob && Listed(s.log)[i].1 == s.store.public[i].name
  {
    AlwaysTold(uid, clock, events);
  }
}
