/** How many messages one event may send the panel. Every event but a clock tick fits the
    channel, settling a load being the largest; a tick fits exactly when the requests it
    has to withdraw do. */
module AgentBurst {
  import opened Base
  import opened KeyStoreModel
  import opened ApprovalModel
  import opened ObserverModel
  import opened AgentModel
  import opened AgentSends
  import opened AgentSpill
  import opened AgentInvariant
  import opened AgentArms
  import opened AgentRelease
  import opened AgentDrain
  import opened AgentSafety
  import opened AgentTheorems

  /** The most messages that releasing `n` held requests sends. */
  function ReleaseBurst(n: nat): nat {
    if n == 0 then 0 else Max(2 * n, 3 * n - 2)
  }

  lemma ReleaseHeldFits(s: Agent)
    requires Releasing(s)
    ensures Sent(ReleaseHeld(s).log) <= Sent(s.log) + ReleaseBurst(|s.held|)
  {
    hide Releasing, ReleaseHeld, Asked, Freed, Settling, HeldInOrder, Plains, Opener, Plain, Sent;
    Counts(s);
    OrderLength(s);
    var hs := HeldInOrder(s);
    if Settling(Freed(s)) > 0 {
      var i :| 0 <= i < |hs| && Opener(s.store, hs[i]);
      OpenerIsNotPlain(s.store, hs[i]);
      OneMissing(s.store, hs, i);
    }
  }

  /** Publishing a load leaves a state to release from. */
  lemma PublishedReleases(s: Agent)
    requires Inv(s) && !s.gateOpen && FinishLoad(s).1.Published?
    ensures Releasing(FinishLoad(s).0) && FinishLoad(s).0.held == s.held
    ensures Core(FinishLoad(s).0, s.held, Waiting(s))
  {
    hide Core, FinishLoad;
    FinishLoadKeeps(s, s.held, Waiting(s));
    QueueEmptyWhenShut(s);
    CoreReleases(FinishLoad(s).0, Waiting(s));
  }

  lemma CoreReleases(s: Agent, f: set<Chan>)
    requires Core(s, s.held, f) && s.approvals.queue == [] && s.approvals.grants == [] && |s.held| <= MAX_PENDING
    ensures Releasing(s)
  {
    forall blob | Authorize(s.store, blob).Some? ensures FindPublic(s.store.public, blob).Some? {
      KeyIsListed(s.store, blob);
    }
  }

  lemma FinishLoadFits(s: Agent)
    requires ValidStore(s.store)
    ensures Sent(FinishLoad(s).0.log) <= Sent(s.log) + MAX_KEYS + 1
  {
    hide Sent, Refusals, LoadInto, AnnounceEach;
    FinishLoadSends(s);
    if s.load.Some? && s.load.value.ended && s.load.value.payload.Some? {
      LoadIntoValid(s.store, s.load.value);
      AnnounceSends(s.(load := None, store := LoadInto(s.store, s.load.value).0, gateOpen := true),
                    s.load.value.epoch, LoadInto(s.store, s.load.value).0.public);
    }
  }

  lemma BurstFits(n: nat)
    requires n <= MAX_PENDING
    ensures n <= ReleaseBurst(n)
    ensures MAX_KEYS + 1 + ReleaseBurst(n) + 1 <= CONTROL_OUTPUT_CAPACITY
  {
  }

  /** Settling a load, from whatever state a run can reach it, never overruns the channel. */
  lemma SettleLoadFits(s: Agent)
    requires Inv(s) && !s.gateOpen && s.handshake
    ensures Sent(SettleLoad(s).log) <= Sent(s.log) + MAX_KEYS + 1 + ReleaseBurst(|s.held|) + 1
    ensures MAX_KEYS + 1 + ReleaseBurst(|s.held|) + 1 <= CONTROL_OUTPUT_CAPACITY
  {
    BurstFits(|s.held|);
    hide Core, Sent, ReleaseBurst, FinishLoad, ReleaseHeld, CancelHeld, ReleaseListing, Releasing;
    CoreStore(s, s.held, Waiting(s));
    FinishLoadFits(s);
    FinishLoadKeeps(s, s.held, Waiting(s));
    QueueEmptyWhenShut(s);
    var (s1, outcome) := FinishLoad(s);
    match outcome
    case StillLoading =>
    case Published =>
      PublishedReleases(s);
      ReleaseHeldFits(s1);
      ReleaseListingSends(ReleaseHeld(s1), "released");
    case LoadRefused =>
      CancelHeldSends(s1, "load-failed");
      ReleaseListingSends(CancelHeld(s1, "load-failed"), "load-failed");
  }

  // ---- every event ----

  /** The panel's channel takes everything this event sends. */
  ghost predicate Fits(s: Agent, e: Event) {
    Sent(Step(s, e).log) <= Sent(s.log) + CONTROL_OUTPUT_CAPACITY
  }

  /** A tick, with the gate open, that finds more requests to withdraw than there is room
      for beside the listing and the grants. */
  ghost predicate Overruns(s: Agent, e: Event) {
    && e.Tick? && s.gateOpen
    && |Lapsed(s, e.closed)| + Count(ListingOver(s, e.closed)) + Count(GrantsMoved(s)) > CONTROL_OUTPUT_CAPACITY
  }

  lemma TickFits(s: Agent, closed: set<Chan>)
    requires Inv(s)
    ensures TickBurst(s, closed) <= CONTROL_OUTPUT_CAPACITY <==> !Overruns(s, Tick(closed))
  {
    hide Core, ListingOver, GrantsMoved, Position, Expire;
    if s.gateOpen {
      assert StaleIds(s, closed, Now(s)) == {};
    } else {
      QueueEmptyWhenShut(s);
      assert Lapsed(s, closed) == {};
      SubsetSize(StaleIds(s, closed, Now(s)), s.held.Keys);
      assert |s.held.Keys| == |s.held|;
    }
  }

  lemma LoadEndFits(s: Agent, epoch: nat, ok: bool)
    requires Inv(s) && s.handshake
    ensures Sent(OnControl(s, KeyLoadEnd(epoch, ok)).log) <= Sent(s.log) + CONTROL_OUTPUT_CAPACITY
  {
    hide Core, Refusals, Sent, SettleLoad, CancelHeld, ReleaseListing;
    var c := KeyLoadEnd(epoch, ok);
    var s1 := Note(s, Told(c));
    NoteSends(s, Told(c));
    CancelSends(s1.(load := None, store := Lock(s.store, epoch), gateOpen := false), "load-failed");
    if ok && s.load.Some? && s.load.value.epoch == epoch {
      EndedKeeps(s, epoch);
      NoteSends(s1.(readings := s.readings + 1), Clock(Now(s1)));
      SettleLoadFits(Ended(s1));
    }
  }

  lemma StepFits(s: Agent, e: Event)
    requires Inv(s) && s.phase.Running? && Polite(s, e)
    ensures Fits(s, e) <==> !Overruns(s, e)
  {
    hide Core, Refusals, Sent, OnTick, SettleLoad, HandleClient, Finish, CancelHeld, ReleaseListing, TickBurst;
    match e
    case Tick(closed) =>
      TickSends(s, closed);
      TickFits(s, closed);
    case FromFifo(epoch, payload) =>
      if s.load.Some? {
        DeliveredKeeps(s, payload);
        SettleLoadFits(s.(load := Some(s.load.value.(payload := Some(payload)))));
      }
    case FromClient(c) => ClientSends(s, c);
    case PanelGarbled =>
    case PanelClosed =>
      NoteSends(s, Told(Shutdown));
      FinishSends(Note(s, Told(Shutdown)));
    case FromPanel(c) =>
      if c.KeyLoadEnd? { LoadEndFits(s, c.epoch, c.ok); } else { ControlSends(s, c); }
  }

  /** For every event of every run: what it sends fits the panel's channel, unless it is a
      tick that has to withdraw more requests than the channel has room for. */
  lemma EventFitsExactly(uid: nat, clock: nat -> nat, events: seq<Event>, e: Event)
    requires HelloFirst(events + [e]) && Run(Init(uid, clock), events).phase.Running?
    ensures Fits(Run(Init(uid, clock), events), e) <==> !Overruns(Run(Init(uid, clock), events), e)
  {
    hide Inv, Step, Fits, Overruns;
    assert (events + [e])[..|events|] == events;
    HelloFirstPrefix(events + [e], |events|);
    RunKeeps(uid, clock, events);
    var s := Run(Init(uid, clock), events);
    assert Polite(s, e);
    StepFits(s, e);
  }

  // ---- releases within runs ----

  /** The state this event settles a load from, if it does. */
  ghost function Settles(s: Agent, e: Event): Option<Agent> {
    if s.phase != Running || s.load.None? then None
    else
      match e
      case FromPanel(KeyLoadEnd(epoch, ok)) =>
        if ok && s.load.value.epoch == epoch then Some(Ended(Note(s, Told(e.control)))) else None
      case FromFifo(epoch, payload) =>
        if s.load.value.epoch == epoch then Some(s.(load := Some(s.load.value.(payload := Some(payload))))) else None
      case _ => None
  }

  lemma SettlesInvariant(uid: nat, clock: nat -> nat, events: seq<Event>, e: Event)
    requires HelloFirst(events + [e]) && Settles(Run(Init(uid, clock), events), e).Some?
    ensures var s := Run(Init(uid, clock), events);
            var s1 := Settles(s, e).value;
            Inv(s1) && !s1.gateOpen && s1.handshake && s1.held == s.held && Step(s, e) == SettleLoad(s1)
  {
    hide Core, SettleLoad;
    assert (events + [e])[..|events|] == events;
    HelloFirstPrefix(events + [e], |events|);
    RunKeeps(uid, clock, events);
    var s := Run(Init(uid, clock), events);
    assert Polite(s, e);
    if e.FromFifo? { DeliveredKeeps(s, e.payload); } else { EndedKeeps(s, e.control.epoch); }
  }

  /** Once the first `k` held requests have been released, the queue is not full. */
  ghost predicate RoomAfter(s: Agent, k: nat) {
    && k <= |Ascending(s.held.Keys)|
    && |ReleaseEach(s.(held := map[]), s.held, Ascending(s.held.Keys)[..k]).approvals.queue| < MAX_PENDING
  }

  /** Whenever an event of a run publishes a load, each held request finds room in the
      queue as its turn comes. */
  lemma ReleasesHaveRoom(uid: nat, clock: nat -> nat, events: seq<Event>, e: Event, k: nat)
    requires HelloFirst(events + [e]) && Settles(Run(Init(uid, clock), events), e).Some?
    requires var s1 := Settles(Run(Init(uid, clock), events), e).value;
             FinishLoad(s1).1.Published? && k < |s1.held|
    ensures var s2 := FinishLoad(Settles(Run(Init(uid, clock), events), e).value).0;
            RoomAfter(s2, k)
  {
    hide Inv, Run, Settles, FinishLoad, Core, ReleaseEach, SettleLoad, Step;
    SettlesInvariant(uid, clock, events, e);
    var s1 := Settles(Run(Init(uid, clock), events), e).value;
    PublishedReleases(s1);
    var s2 := FinishLoad(s1).0;
    OrderLength(s2);
    ReleaseNeverFull(s2, Waiting(s1), k);
  }

  /** Whenever an event of a run publishes a load: the release takes more than two messages
      for each held request if and only if they spill in time. */
  lemma MoreThanTwoExactly(uid: nat, clock: nat -> nat, events: seq<Event>, e: Event)
    requires HelloFirst(events + [e]) && Settles(Run(Init(uid, clock), events), e).Some?
    requires FinishLoad(Settles(Run(Init(uid, clock), events), e).value).1.Published?
    ensures var s2 := FinishLoad(Settles(Run(Init(uid, clock), events), e).value).0;
            TakesMoreThanTwoEach(s2) <==> SpillsInTime(s2)
  {
    hide Inv, Run, Settles, FinishLoad, Core, SettleLoad, Step, Releasing, TakesMoreThanTwoEach, SpillsInTime;
    SettlesInvariant(uid, clock, events, e);
    var s1 := Settles(Run(Init(uid, clock), events), e).value;
    PublishedReleases(s1);
    var s2 := FinishLoad(s1).0;
    SpillsExactly(s2);
  }
}
