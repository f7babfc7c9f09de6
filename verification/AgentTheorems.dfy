/** What the invariant says about every run of the agent. */
module AgentTheorems {
  import opened Base
  import opened KeyStoreModel
  import opened ApprovalModel
  import opened ObserverModel
  import opened AgentModel
  import opened AgentSends
  import opened AgentInvariant
  import opened AgentArms
  import opened AgentDrain
  import opened AgentSafety

  // ---- runs ----

  predicate IsHello(e: Event) {
    e == FromPanel(Hello)
  }

  predicate SaidHello(events: seq<Event>) {
    exists j :: 0 <= j < |events| && IsHello(events[j])
  }

  /** The panel opens the conversation with `hello`. */
  predicate HelloFirst(events: seq<Event>) {
    forall i | 0 <= i < |events| && events[i].FromPanel? && !IsHello(events[i]) ::
      SaidHello(events[..i])
  }

  lemma HelloFirstPrefix(events: seq<Event>, k: nat)
    requires HelloFirst(events) && k <= |events|
    ensures HelloFirst(events[..k])
  {
    forall i | 0 <= i < k && events[..k][i].FromPanel? && !IsHello(events[..k][i]) ensures SaidHello(events[..k][..i]) {
      assert events[..k][..i] == events[..i];
    }
  }

  lemma HelloShakes(s: Agent)
    requires Inv(s) && s.phase.Running?
    ensures Step(s, FromPanel(Hello)).handshake
  {
  }

  /** Every event of every run that starts with `hello` keeps the invariant. */
  lemma {:induction false} RunKeeps(uid: nat, clock: nat -> nat, events: seq<Event>)
    requires HelloFirst(events)
    ensures var s := Run(Init(uid, clock), events);
            && Inv(s) && s.approvals.uid == uid
            && (s.phase.Running? && SaidHello(events) ==> s.handshake)
    decreases |events|
  {
    hide Inv, Step;
    if events == [] {
      InitInv(uid, clock);
    } else {
      var front := events[..|events| - 1];
      HelloFirstPrefix(events, |events| - 1);
      RunKeeps(uid, clock, front);
      NextKeeps(Run(Init(uid, clock), front), events);
    }
  }

  /** The last of `events`, after a run of the others. */
  lemma NextKeeps(s: Agent, events: seq<Event>)
    requires events != [] && HelloFirst(events) && Inv(s)
    requires s.phase.Running? && SaidHello(events[..|events| - 1]) ==> s.handshake
    ensures var s' := Step(s, events[|events| - 1]);
            && Inv(s') && s'.approvals.uid == s.approvals.uid
            && (s'.phase.Running? && SaidHello(events) ==> s'.handshake)
  {
    hide Inv;
    var front := events[..|events| - 1];
    var e := events[|events| - 1];
    assert forall j | 0 <= j < |front| :: front[j] == events[j];
    if s.phase.Running? {
      assert Polite(s, e);
      StepKeeps(s, e);
      if IsHello(e) { HelloShakes(s); }
    }
  }

  // ---- epochs ----

  /** Whatever happens, the store is the same as before or its interval is over. */
  lemma {:induction false} StoreMovesOn(uid: nat, clock: nat -> nat, events: seq<Event>, i: nat)
    requires HelloFirst(events) && i <= |events|
    ensures Later(Run(Init(uid, clock), events).store, Run(Init(uid, clock), events[..i]).store)
    decreases |events|
  {
    hide Inv, Step, Init;
    if i == |events| {
      assert events[..i] == events;
    } else {
      var n := |events| - 1;
      HelloFirstPrefix(events, n);
      StoreMovesOn(uid, clock, events[..n], i);
      assert events[..n][..i] == events[..i];
      RunKeeps(uid, clock, events[..n]);
      var s := Run(Init(uid, clock), events[..n]);
      NextMovesOn(s, events);
      LaterOn(Run(Init(uid, clock), events[..i]).store, s.store, Step(s, events[n]).store);
    }
  }

  lemma NextMovesOn(s: Agent, events: seq<Event>)
    requires events != [] && HelloFirst(events) && Inv(s)
    requires s.phase.Running? && SaidHello(events[..|events| - 1]) ==> s.handshake
    ensures Later(Step(s, events[|events| - 1]).store, s.store)
  {
    if s.phase.Running? {
      hide Inv, Step;
      assert Polite(s, events[|events| - 1]);
      StepKeeps(s, events[|events| - 1]);
    }
  }

  /** Epoch windows of the agent: if the keys are unlocked at one epoch at two points of a
      run, the store was that very store all the time in between; its private keys exist
      only while unlocked, each paired with its own distinct public blob. */
  lemma EpochWindows(uid: nat, clock: nat -> nat, events: seq<Event>, i: nat, k: nat, epoch: nat)
    requires HelloFirst(events) && i <= k <= |events|
    requires Allows(Run(Init(uid, clock), events[..i]).store.tracker, epoch)
    requires Allows(Run(Init(uid, clock), events).store.tracker, epoch)
    ensures Run(Init(uid, clock), events[..k]).store == Run(Init(uid, clock), events[..i]).store
    ensures ValidStore(Run(Init(uid, clock), events[..k]).store)
  {
    hide Run, Inv;
    HelloFirstPrefix(events, k);
    StoreMovesOn(uid, clock, events, k);
    StoreMovesOn(uid, clock, events[..k], i);
    assert events[..k][..i] == events[..i];
    RunKeeps(uid, clock, events[..k]);
    InvStore(Run(Init(uid, clock), events[..k]));
  }

  lemma InvStore(s: Agent)
    requires Inv(s)
    ensures ValidStore(s.store)
  {
  }

  // ---- what was replied ----

  /** Every signature the agent ever sends was justified when it was sent: its own key,
      data and user, over published keys, and the panel's approval of this very request or
      an open, unexpired grant that answers it; never a grant if the request was forwarded
      or unreadable. */
  lemma SignaturesJustified(uid: nat, clock: nat -> nat, events: seq<Event>, past: Log, chan: Chan, sig: Signature)
    requires HelloFirst(events)
    requires Extends(Run(Init(uid, clock), events).log, Then(past, Replied(chan, Signed(sig))))
    ensures var o := Observe(past);
            && Open(o.book, chan)
            && Justified(o, uid, chan, sig)
            && (!Grantable(Scope(o.book.requests[chan])) ==> chan in o.approved)
  {
    RunKeeps(uid, clock, events);
    AcceptedAt(Run(Init(uid, clock), events).log, uid, past, Replied(chan, Signed(sig)));
  }

  /** Every grant ever opened came from the panel approving a grantable request for a
      window, and covers that request and no more. */
  lemma GrantsJustified(uid: nat, clock: nat -> nat, events: seq<Event>, past: Log, g: Grant, chan: Chan)
    requires HelloFirst(events)
    requires Extends(Run(Init(uid, clock), events).log, Then(past, Opened(g, chan)))
    ensures GrantJustified(Observe(past), g, chan)
  {
    RunKeeps(uid, clock, events);
    AcceptedAt(Run(Init(uid, clock), events).log, uid, past, Opened(g, chan));
  }

  // ---- conservation of requests ----

  function Deliveries(log: Log, c: Chan): nat {
    match log
    case Empty => 0
    case Then(past, last) => Deliveries(past, c) + if last.Delivered? && last.chan == c then 1 else 0
  }

  function Replies(log: Log, c: Chan): nat {
    match log
    case Empty => 0
    case Then(past, last) => Replies(past, c) + if last.Replied? && last.chan == c then 1 else 0
  }

  lemma {:induction false} OnceEach(log: Log, uid: nat, c: Chan)
    requires Accepted(log, uid)
    ensures Deliveries(log, c) == if c in Observe(log).book.requests then 1 else 0
    ensures Replies(log, c) == if c in Observe(log).book.answered then 1 else 0
  {
    if log.Then? {
      OnceEach(log.past, uid, c);
    }
  }

  ghost function InPending(s: Agent, c: Chan): nat {
    |set id | id in s.pending && s.pending[id].chan == c|
  }

  ghost function InHeld(s: Agent, c: Chan): nat {
    |set id | id in s.held && s.held[id].chan == c|
  }

  ghost function InListing(s: Agent, c: Chan): nat {
    if s.listing.None? then 0 else multiset(s.listing.value.waiting)[c]
  }

  lemma AtMostOne<T>(xs: set<T>)
    requires forall x, y | x in xs && y in xs :: x == y
    ensures |xs| == if xs == {} then 0 else 1
  {
    if xs != {} {
      var x :| x in xs;
      assert xs == {x};
    }
  }

  lemma {:induction false} DistinctOnce(xs: seq<Chan>, c: Chan)
    requires Distinct(xs)
    ensures multiset(xs)[c] == if c in xs then 1 else 0
  {
    if xs != [] {
      var front := xs[..|xs| - 1];
      assert xs == front + [xs[|xs| - 1]];
      DistinctOnce(front, c);
    }
  }

  lemma StandsOnce(pending: map<RequestId, PendingSign>, c: Chan)
    requires OneEach(pending)
    ensures |set id | id in pending && pending[id].chan == c| == if c in PendingChans(pending) then 1 else 0
  {
    var ids := set id | id in pending && pending[id].chan == c;
    AtMostOne(ids);
    if c in PendingChans(pending) {
      var id :| id in pending && pending[id].chan == c;
      assert id in ids;
    }
  }

  lemma IsHeldOnce(held: map<RequestId, HeldSign>, c: Chan)
    requires OneEachHeld(held)
    ensures |set id | id in held && held[id].chan == c| == if c in HeldChans(held) then 1 else 0
  {
    var ids := set id | id in held && held[id].chan == c;
    AtMostOne(ids);
    if c in HeldChans(held) {
      var id :| id in held && held[id].chan == c;
      assert id in ids;
    }
  }

  /** In a table means standing there exactly once. */
  lemma Standing(s: Agent, c: Chan)
    requires Inv(s)
    ensures InPending(s, c) == if c in PendingChans(s.pending) then 1 else 0
    ensures InHeld(s, c) == if c in HeldChans(s.held) then 1 else 0
    ensures InListing(s, c) == if c in Waiting(s) then 1 else 0
  {
    assert s.listing.Some? ==> Distinct(s.listing.value.waiting);
    hide Core, PendingChans, HeldChans, OneEach, OneEachHeld;
    TablesApart(s, s.held, Waiting(s));
    StandsOnce(s.pending, c);
    IsHeldOnce(s.held, c);
    if s.listing.Some? { DistinctOnce(s.listing.value.waiting, c); }
  }

  /** An unanswered request is in one of the three places, an answered one in none. */
  lemma Somewhere(s: Agent, c: Chan)
    requires Inv(s)
    ensures var b := Observe(s.log).book;
            (c in b.requests && c !in b.answered) <==>
            c in PendingChans(s.pending) || c in HeldChans(s.held) || c in Waiting(s)
  {
    var b := Observe(s.log).book;
    if c in b.requests && c !in b.answered {
      assert c in Waiting(s) || Placed(c, s.pending, s.held, b);
    }
  }

  /** Requests are conserved: at every event boundary of every run, whatever was delivered
      has been answered once, or stands in exactly one table, or waits for one listing. */
  lemma RequestsConserved(uid: nat, clock: nat -> nat, events: seq<Event>, c: Chan)
    requires HelloFirst(events)
    ensures var s := Run(Init(uid, clock), events);
            && Deliveries(s.log, c) <= 1
            && Deliveries(s.log, c) == Replies(s.log, c) + InPending(s, c) + InHeld(s, c) + InListing(s, c)
  {
    RunKeeps(uid, clock, events);
    var s := Run(Init(uid, clock), events);
    AnsweredOrStanding(s, c);
  }

  lemma AnsweredOrStanding(s: Agent, c: Chan)
    requires Inv(s)
    ensures Deliveries(s.log, c) <= 1
    ensures Deliveries(s.log, c) == Replies(s.log, c) + InPending(s, c) + InHeld(s, c) + InListing(s, c)
  {
    OnceEach(s.log, s.approvals.uid, c);
    Standing(s, c);
    Somewhere(s, c);
    TablesApart(s, s.held, Waiting(s));
    assert c in Observe(s.log).book.answered ==> c in Observe(s.log).book.requests;
  }

  predicate AllAnswered(log: Log) {
    forall c | c in Observe(log).book.requests :: c in Observe(log).book.answered
  }

  lemma NothingStanding(s: Agent)
    requires Inv(s) && s.pending == map[] && s.held == map[] && s.listing.None?
    ensures AllAnswered(s.log)
  {
    forall c | c in Observe(s.log).book.requests ensures c in Observe(s.log).book.answered {
      Somewhere(s, c);
    }
  }

  /** Messages after which nobody may be left waiting. */
  predicate Drains(s: Agent, e: Event) {
    || e.PanelClosed?
    || (e.FromPanel? && (e.control.VaultLocked? || e.control.VaultLoggedOut? || e.control.Shutdown?))
    || (e.FromPanel? && e.control.KeyLoadEnd? && !e.control.ok && s.load.Some? && s.load.value.epoch == e.control.epoch)
  }

  lemma DrainsTables(s: Agent, e: Event)
    requires Inv(s) && s.phase.Running? && Polite(s, e) && Drains(s, e)
    ensures var s' := Step(s, e);
            s'.pending == map[] && s'.held == map[] && s'.listing.None?
  {
    hide Core, Deactivate, Finish, CancelHeld, ReleaseListing;
    if e.PanelClosed? || e.control.Shutdown? {
      ShutdownKeeps(s);
      FinishKeeps(Note(s, Told(Shutdown)));
    } else if e.control.VaultLocked? {
      CoreStore(s, s.held, Waiting(s));
      DeactivateKeeps(s, e.control, Lock(s.store, e.control.epoch), "locked");
    } else if e.control.VaultLoggedOut? {
      CoreStore(s, s.held, Waiting(s));
      DeactivateKeeps(s, e.control, Logout(s.store, SatAdd(s.store.tracker.epoch, 1)), "logged-out");
    } else {
      var s1 := Note(s, Told(e.control));
      ToldSilent(s, s.held, Waiting(s), e.control);
      LockStoreKeeps(s1, s.held, Waiting(s), e.control.epoch);
      QueueEmptyWhenShut(s);
      CancelKeeps(s1.(store := Lock(s.store, e.control.epoch), load := None, gateOpen := false), "load-failed");
    }
  }

  /** After a lock, a logout, a load the panel gave up, or the end of the conversation,
      every request ever delivered has its reply. */
  lemma NobodyWaits(uid: nat, clock: nat -> nat, events: seq<Event>, e: Event)
    requires HelloFirst(events + [e])
    requires var s := Run(Init(uid, clock), events); s.phase.Running? && Drains(s, e)
    ensures AllAnswered(Run(Init(uid, clock), events + [e]).log)
  {
    hide Inv, Drains, Step, AllAnswered;
    assert (events + [e])[..|events|] == events;
    HelloFirstPrefix(events + [e], |events|);
    RunKeeps(uid, clock, events);
    RunKeeps(uid, clock, events + [e]);
    var s := Run(Init(uid, clock), events);
    assert Polite(s, e);
    DrainsTables(s, e);
    NothingStanding(Step(s, e));
  }

  // ---- refused loads ----

  /** Nobody waits, and no key is left. */
  ghost predicate Drained(s: Agent) {
    && s.pending == map[] && s.held == map[] && s.listing.None?
    && AllAnswered(s.log) && !s.gateOpen && s.store.private == []
  }

  lemma RefusedLoadDrains(s: Agent)
    requires Inv(s) && !s.gateOpen && s.handshake && FinishLoad(s).1.LoadRefused?
    ensures Drained(SettleLoad(s))
  {
    hide Core, CancelHeld, ReleaseListing, AllAnswered;
    SettleLoadKeeps(s);
    FinishLoadKeeps(s, s.held, Waiting(s));
    QueueEmptyWhenShut(s);
    CancelKeeps(FinishLoad(s).0, "load-failed");
    NothingStanding(SettleLoad(s));
  }

  lemma SettlingDrains(s: Agent)
    requires Inv(s) && !s.gateOpen && s.handshake && Refusals(SettleLoad(s).log) > Refusals(s.log)
    ensures Drained(SettleLoad(s))
  {
    hide Inv, SettleLoad, FinishLoad, Drained, Refusals;
    SettleLoadReports(s);
    RefusedLoadDrains(s);
  }

  lemma TickDrains(s: Agent, closed: set<Chan>)
    requires Inv(s) && s.phase.Running? && Overdue(s, Now(s))
    ensures Drained(OnTick(s, closed))
  {
    hide Core, Drained, Refusals, Sent, SettleLoad, EmitGrants, Expire;
    var now := Now(s);
    ExpiredKeeps(s, s.held, Waiting(s));
    var s1 := Expired(s);
    DeliveredKeeps(s1, ReadFailed);
    ExpireLoadSends(s1, now);
    SettlingDrains(s1.(load := Some(s1.load.value.(payload := Some(ReadFailed)))));
    DrainedTick(ExpireLoad(s1, now), closed, now);
    TickStages(s, closed);
  }

  /** The rest of the tick finds nothing to do but report the grants. */
  lemma DrainedTick(s: Agent, closed: set<Chan>, now: nat)
    requires Drained(s)
    ensures Drained(EmitGrants(Relisted(Dropped(Withdrawn(s, closed), closed, now), closed, now)))
  {
    assert Withdrawn(s, closed) == s by { assert ExpiredIds(s, closed) == {}; }
    assert Dropped(s, closed, now) == s by { assert StaleIds(s, closed, now) == {}; }
    assert Relisted(s, closed, now) == s;
  }

  lemma RefusalDrains(s: Agent, e: Event)
    requires Inv(s) && s.phase.Running? && Polite(s, e) && Refusals(Step(s, e).log) > Refusals(s.log)
    ensures Drained(Step(s, e))
  {
    hide Core, Drained, Refusals, Sent, OnTick, SettleLoad, HandleClient, Finish, CancelHeld, ReleaseListing;
    match e
    case Tick(closed) =>
      TickSends(s, closed);
      TickDrains(s, closed);
    case FromFifo(epoch, payload) =>
      DeliveredKeeps(s, payload);
      SettlingDrains(s.(load := Some(s.load.value.(payload := Some(payload)))));
    case FromClient(c) => ClientSends(s, c);
    case PanelGarbled =>
    case PanelClosed =>
      NoteSends(s, Told(Shutdown));
      FinishSends(Note(s, Told(Shutdown)));
    case FromPanel(c) =>
      if c.KeyLoadEnd? { LoadEndDrains(s, c.epoch, c.ok); } else { ControlSends(s, c); }
  }

  lemma LoadEndDrains(s: Agent, epoch: nat, ok: bool)
    requires Inv(s) && s.handshake && Refusals(OnControl(s, KeyLoadEnd(epoch, ok)).log) > Refusals(s.log)
    ensures Drained(OnControl(s, KeyLoadEnd(epoch, ok)))
  {
    hide Core, Drained, Refusals, Sent, SettleLoad, CancelHeld, ReleaseListing;
    var c := KeyLoadEnd(epoch, ok);
    var s1 := Note(s, Told(c));
    NoteSends(s, Told(c));
    CancelSends(s1.(load := None, store := Lock(s.store, epoch), gateOpen := false), "load-failed");
    if ok && s.load.Some? && s.load.value.epoch == epoch {
      EndedKeeps(s, epoch);
      NoteSends(s1.(readings := s.readings + 1), Clock(Now(s1)));
      SettlingDrains(Ended(s1));
    }
  }

  /** However a load is refused (the FIFO's payload, the panel ending it, the deadline), the
      very event that reports it to the panel leaves no request without its reply, no key,
      and the gate shut. */
  lemma RefusedLoadsAnswerAll(uid: nat, clock: nat -> nat, events: seq<Event>, e: Event)
    requires HelloFirst(events + [e])
    requires Refusals(Run(Init(uid, clock), events + [e]).log) > Refusals(Run(Init(uid, clock), events).log)
    ensures Drained(Run(Init(uid, clock), events + [e]))
  {
    hide Inv, Step, Drained, Refusals;
    assert (events + [e])[..|events|] == events;
    HelloFirstPrefix(events + [e], |events|);
    RunKeeps(uid, clock, events);
    var s := Run(Init(uid, clock), events);
    if s.phase.Running? {
      assert Polite(s, e);
      RefusalDrains(s, e);
    } else {
      StoppedStays(s, e);
    }
  }

  lemma StoppedStays(s: Agent, e: Event)
    requires !s.phase.Running?
    ensures Step(s, e) == s
  {
  }

  // ---- the tables agree ----

  /** The id of the held listing was handed out and is in no table. */
  predicate ListingApart(s: Agent)
    requires s.listing.Some?
  {
    var id := s.listing.value.id;
    id < s.approvals.nextId && id !in s.pending && id !in s.held
  }

  /** At every event boundary of every run: each queued request is pending under its id,
      with the data of the request whose key it names; ids are in one table only and were
      all handed out; an open gate leaves nothing held, a shut one nothing queued or
      pending; queued and held requests together fit the four places. */
  lemma TablesAgree(uid: nat, clock: nat -> nat, events: seq<Event>)
    requires HelloFirst(events)
    ensures var s := Run(Init(uid, clock), events);
            var b := Observe(s.log).book;
            && (forall r | r in s.approvals.queue ::
                  && r.id in s.pending && s.pending[r.id].chan in b.requests
                  && var c := b.requests[s.pending[r.id].chan];
                     && c.request == SignData(r.blob, s.pending[r.id].message, s.pending[r.id].flags)
                     && c.peer == r.peer && Scope(c) == r.scope && c.peer.uid == uid)
            && s.pending.Keys !! s.held.Keys
            && (forall id | id in s.pending || id in s.held :: id < s.approvals.nextId)
            && (s.listing.Some? ==> ListingApart(s))
            && (s.gateOpen ==> s.held == map[])
            && (!s.gateOpen ==> s.approvals.queue == [] && s.pending == map[])
            && |s.approvals.queue| + |s.held| <= MAX_PENDING
  {
    RunKeeps(uid, clock, events);
    var s := Run(Init(uid, clock), events);
    hide Run, Init;
    TablesAgreeNow(s);
  }

  lemma TablesAgreeNow(s: Agent)
    requires Inv(s)
    ensures var b := Observe(s.log).book;
            && (forall r | r in s.approvals.queue ::
                  && r.id in s.pending && s.pending[r.id].chan in b.requests
                  && var c := b.requests[s.pending[r.id].chan];
                     && c.request == SignData(r.blob, s.pending[r.id].message, s.pending[r.id].flags)
                     && c.peer == r.peer && Scope(c) == r.scope && c.peer.uid == s.approvals.uid)
    ensures s.pending.Keys !! s.held.Keys
    ensures forall id | id in s.pending || id in s.held :: id < s.approvals.nextId
    ensures s.listing.Some? ==> ListingApart(s)
    ensures s.gateOpen ==> s.held == map[]
    ensures !s.gateOpen ==> s.approvals.queue == [] && s.pending == map[]
    ensures |s.approvals.queue| + |s.held| <= MAX_PENDING
  {
    var b := Observe(s.log).book;
    forall r | r in s.approvals.queue ensures QueuedFor(r, s.pending, s.store.tracker.epoch, b) && r.id in s.pending
      && Asks(b, s.pending[r.id].chan, s.pending[r.id].message, s.pending[r.id].flags) {
    }
  }
}
