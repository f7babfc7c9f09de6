/** Two runs from the start: one whose release of three held requests takes seven messages,
    and one in which a clock tick has more to send than the panel's channel holds. */
module AgentWitness {
  import opened Base
  import opened KeyStoreModel
  import opened ApprovalModel
  import opened ObserverModel
  import opened FifoModel
  import opened AgentModel
  import opened AgentSends
  import opened AgentSpill
  import opened AgentArms
  import opened AgentSafety
  import opened AgentTheorems
  import opened AgentBurst

  // ---- one key and the events that load it ----

  const KEY := PrivateKey(Ed25519, Some([1]), "", Some(""))
  const ITEM := Item([], [], 1, Parsed(KEY), Some(Some([1])), "", false)

  function Nonce(): seq<byte> {
    seq(32, _ => 0x30)
  }

  function Loaded(epoch: nat): Store {
    Store(Tracker(epoch, Unlocked), [PublicIdentity([], [], "", "", [1])], [PrivateIdentity(KEY, 0)])
  }

  function Keys(): Payload {
    Bytes(1, Some((Nonce(), [ITEM])))
  }

  function LoadBegin(epoch: nat): Event {
    FromPanel(KeyLoadBegin(epoch, Nonce()))
  }

  function LoadEnd(epoch: nat): Event {
    FromPanel(KeyLoadEnd(epoch, true))
  }

  lemma LoadsKey(store: Store, load: ActiveLoad)
    requires load.epoch > store.tracker.epoch && load.nonce == Nonce() && load.payload == Some(Keys())
    ensures LoadInto(store, load) == (Loaded(load.epoch), true)
  {
    assert ValidNonce(Nonce());
    var c := Candidate(load.epoch, 0, false, [], [], []);
    assert TruncatedName([]) == [];
    assert Defect([], ITEM) == None;
    var c' := Add(c, ITEM).0;
    assert c'.public == Loaded(load.epoch).public && c'.private == Loaded(load.epoch).private;
    assert AddAll(c, [ITEM]) == (c', true) by {
      assert [ITEM][0] == ITEM && [ITEM][1..] == [];
      assert AddAll(c', []) == (c', true);
    }
  }

  lemma KeyIsThere(epoch: nat)
    ensures Authorize(Loaded(epoch), [1]).Some? && FindPublic(Loaded(epoch).public, [1]).Some?
  {
  }

  /** Nothing in the way of a load. */
  predicate Idle(s: Agent) {
    s.phase == Running && s.handshake && s.load.None? && s.pending == map[] && s.listing.None?
  }

  lemma BeginsLoad(s: Agent, epoch: nat)
    requires Idle(s)
    ensures Step(s, LoadBegin(epoch)) ==
            Note(s, Told(KeyLoadBegin(epoch, Nonce()))).(
              gateOpen := false, approvals := InvalidateAll(s.approvals),
              load := Some(ActiveLoad(epoch, Nonce(), None, false, None)))
  {
    assert ValidNonce(Nonce());
    var s1 := Note(s, Told(KeyLoadBegin(epoch, Nonce()))).(gateOpen := false, approvals := InvalidateAll(s.approvals));
    assert FailPending(s1) == s1 by { assert s.pending.Keys == {}; }
  }

  lemma TakesPayload(s: Agent, epoch: nat)
    requires s.phase == Running && s.load == Some(ActiveLoad(epoch, Nonce(), None, false, None))
    ensures Step(s, FromFifo(epoch, Keys())) ==
            s.(load := Some(ActiveLoad(epoch, Nonce(), Some(Keys()), false, None)))
  {
  }

  lemma EndsLoad(s: Agent, epoch: nat)
    requires s.phase == Running && s.load == Some(ActiveLoad(epoch, Nonce(), Some(Keys()), false, None))
    requires epoch > s.store.tracker.epoch && s.listing.None?
    ensures Settles(s, LoadEnd(epoch)).Some?
    ensures var s1 := Settles(s, LoadEnd(epoch)).value;
            var s2 := FinishLoad(s1).0;
            && FinishLoad(s1).1.Published?
            && s2 == Note(s, Told(KeyLoadEnd(epoch, true))).(
                       gateOpen := true, load := None, store := Loaded(epoch), readings := s.readings + 1,
                       log := s2.log)
            && Step(s, LoadEnd(epoch)) == ReleaseListing(ReleaseHeld(s2), "released")
  {
    hide ReleaseHeld, LoadInto;
    var s1 := Settles(s, LoadEnd(epoch)).value;
    LoadsKey(s1.store, s1.load.value);
    AnnounceSends(s1.(load := None, store := Loaded(epoch), gateOpen := true), epoch, Loaded(epoch).public);
  }

  lemma {:induction false} RunOn(s: Agent, xs: seq<Event>, ys: seq<Event>)
    ensures Run(s, xs + ys) == Run(Run(s, xs), ys)
  {
    hide Step;
    if ys == [] {
      assert xs + ys == xs;
    } else {
      RunOn(s, xs, ys[..|ys| - 1]);
      assert (xs + ys)[..|xs + ys| - 1] == xs + ys[..|ys| - 1];
    }
  }

  lemma RunOne(s: Agent, e: Event)
    ensures Run(s, [e]) == Step(s, e)
  {
    hide Step;
    assert [e][..0] == [];
    assert Run(s, []) == s;
  }

  lemma StartsWithHello(events: seq<Event>)
    requires events != [] && IsHello(events[0])
    ensures HelloFirst(events)
  {
    forall i | 0 <= i < |events| && events[i].FromPanel? && !IsHello(events[i]) ensures SaidHello(events[..i]) {
      assert events[..i][0] == events[0];
    }
  }

  /** The state before the last event of a load: the payload is in. */
  ghost predicate Waits(s': Agent, s: Agent, epoch: nat) {
    && s'.phase == Running && s'.handshake && s'.listing.None? && s'.pending == map[]
    && s'.load == Some(ActiveLoad(epoch, Nonce(), Some(Keys()), false, None))
    && s'.store == s.store && s'.held == s.held && s'.approvals == InvalidateAll(s.approvals)
    && s'.clock == s.clock && s'.readings == s.readings
  }

  lemma LoadArrives(s: Agent, epoch: nat)
    requires Idle(s)
    ensures Waits(Run(s, [LoadBegin(epoch), FromFifo(epoch, Keys())]), s, epoch)
  {
    hide Step;
    var events := [LoadBegin(epoch), FromFifo(epoch, Keys())];
    assert events == [LoadBegin(epoch)] + [FromFifo(epoch, Keys())];
    RunOn(s, [LoadBegin(epoch)], [FromFifo(epoch, Keys())]);
    RunOne(s, LoadBegin(epoch));
    BeginsLoad(s, epoch);
    var s1 := Step(s, LoadBegin(epoch));
    RunOne(s1, FromFifo(epoch, Keys()));
    TakesPayload(s1, epoch);
  }

  /** Unlocked with the key loaded, nothing waiting and no grant. */
  ghost predicate Opened(s: Agent, uid: nat, clock: nat -> nat, epoch: nat) {
    && Idle(s) && s.gateOpen && s.held == map[] && s.store == Loaded(epoch)
    && s.approvals == NewManager(uid) && s.clock == clock && s.readings == 2
  }

  function Opening(): seq<Event> {
    [FromPanel(Hello)] + [LoadBegin(1), FromFifo(1, Keys())] + [LoadEnd(1)]
  }

  lemma OpeningRun(uid: nat, clock: nat -> nat)
    ensures Opened(Run(Init(uid, clock), Opening()), uid, clock, 1)
  {
    hide Step;
    var s0 := Init(uid, clock);
    var first, middle := [FromPanel(Hello)], [LoadBegin(1), FromFifo(1, Keys())];
    RunOn(s0, first + middle, [LoadEnd(1)]);
    RunOn(s0, first, middle);
    RunOne(s0, FromPanel(Hello));
    SaysHello(uid, clock);
    var s1 := Step(s0, FromPanel(Hello));
    LoadArrives(s1, 1);
    var s2 := Run(s1, middle);
    RunOne(s2, LoadEnd(1));
    EndsLoad(s2, 1);
    NothingToRelease(FinishLoad(Settles(s2, LoadEnd(1)).value).0);
  }

  lemma SaysHello(uid: nat, clock: nat -> nat)
    ensures var s := Step(Init(uid, clock), FromPanel(Hello));
            && Idle(s) && s.held == map[] && s.store == InitStore && s.approvals == NewManager(uid)
            && s.clock == clock && s.readings == 0
  {
  }

  lemma NothingToRelease(s: Agent)
    requires s.held == map[] && s.approvals.queue == [] && s.approvals.grants == [] && s.listing.None?
    ensures var s' := ReleaseListing(ReleaseHeld(s), "released");
            s' == s.(readings := s.readings + 1, log := s'.log)
  {
    assert s.held.Keys == {};
    assert ReleaseEach(s.(held := map[]), s.held, Ascending(s.held.Keys)) == s;
    assert Expire(s.approvals, Now(s)) == s.approvals;
    assert ReleaseGranted(s.approvals, Now(s)) == (s.approvals, []);
  }

  // ---- seven messages for three held requests ----

  /** A program asking for a file signature with the key. */
  function Asker(uid: nat): Client {
    Client(Peer(uid, 1, 1, "git"), false, SshSig([]), SignData([1], [], 0))
  }

  function Still(k: nat): nat {
    0
  }

  /** Locked, with the key's public half cached, and this much held. */
  ghost predicate Shut(s: Agent, uid: nat, held: map<RequestId, HeldSign>, n: nat) {
    && Idle(s) && !s.gateOpen && s.held == held && |held| == n
    && s.store == Lock(Loaded(1), 1) && s.clock == Still
    && s.approvals == NewManager(uid).(nextId := 1 + n)
  }

  lemma Locks(s: Agent, uid: nat)
    requires Opened(s, uid, Still, 1)
    ensures Shut(Step(s, FromPanel(VaultLocked(1))), uid, map[], 0)
  {
    hide FailPending, CancelHeld, ReleaseListing;
    var s1 := Note(s, Told(VaultLocked(1)));
    DrainSends(s1.(gateOpen := false, load := None, store := Lock(s.store, 1), approvals := InvalidateAll(s.approvals)),
               "locked");
  }

  ghost function Ask(uid: nat, chan: Chan): HeldSign {
    HeldFor(chan, Asker(uid), 0)
  }

  lemma Holds(s: Agent, uid: nat, held: map<RequestId, HeldSign>, n: nat)
    requires Shut(s, uid, held, n) && n < MAX_PENDING && 1 + n !in held
    ensures Shut(Step(s, FromClient(Asker(uid))), uid, held[1 + n := Ask(uid, s.nextChan)], n + 1)
  {
    hide FindPublic, HoldSign;
    var s1 := Note(s.(nextChan := s.nextChan + 1), Delivered(s.nextChan, Asker(uid)));
    HoldSignShape(s1, s.nextChan, Asker(uid));
    KeyIsThere(1);
    assert s.store.public == Loaded(1).public;
    assert Step(s, FromClient(Asker(uid))) == HoldSign(s1, s.nextChan, Asker(uid));
    assert |held[1 + n := Ask(uid, s.nextChan)]| == n + 1;
  }

  function Held3(uid: nat, a: Chan, b: Chan, c: Chan): map<RequestId, HeldSign> {
    map[1 := HeldFor(a, Asker(uid), 0), 2 := HeldFor(b, Asker(uid), 0), 3 := HeldFor(c, Asker(uid), 0)]
  }

  /** Three requests held, the last of them approved for a minute. */
  function Approved3(uid: nat, a: Chan, b: Chan, c: Chan): map<RequestId, HeldSign> {
    Held3(uid, a, b, c)[3 := HeldFor(c, Asker(uid), 0).(approved := Some(Seconds(60)))]
  }

  lemma ApprovesThird(s: Agent, uid: nat, a: Chan, b: Chan, c: Chan)
    requires Shut(s, uid, Held3(uid, a, b, c), 3)
    ensures Shut(Step(s, FromPanel(ApproveRequest(3, Seconds(60)))), uid, Approved3(uid, a, b, c), 3)
  {
    assert |Approved3(uid, a, b, c)| == 3;
  }

  function ThreeHeld(uid: nat): seq<Event> {
    [FromPanel(VaultLocked(1)), FromClient(Asker(uid)), FromClient(Asker(uid)), FromClient(Asker(uid)),
     FromPanel(ApproveRequest(3, Seconds(60)))]
  }

  lemma ThreeHeldRun(s: Agent, uid: nat) returns (a: Chan, b: Chan, c: Chan)
    requires Opened(s, uid, Still, 1)
    ensures Shut(Run(s, ThreeHeld(uid)), uid, Approved3(uid, a, b, c), 3)
  {
    hide Step, Shut, Opened;
    var events := ThreeHeld(uid);
    var s1 := Step(s, events[0]);
    Locks(s, uid);
    var s2 := Step(s1, events[1]);
    Holds(s1, uid, map[], 0);
    a := s1.nextChan;
    var s3 := Step(s2, events[2]);
    Holds(s2, uid, map[1 := Ask(uid, a)], 1);
    b := s2.nextChan;
    var s4 := Step(s3, events[3]);
    Holds(s3, uid, map[1 := Ask(uid, a)][2 := Ask(uid, b)], 2);
    c := s3.nextChan;
    assert map[1 := Ask(uid, a)][2 := Ask(uid, b)][3 := Ask(uid, c)] == Held3(uid, a, b, c);
    assert map[][1 := Ask(uid, a)] == map[1 := Ask(uid, a)];
    ApprovesThird(s4, uid, a, b, c);
    RunFive(s, events);
  }

  lemma RunFive(s: Agent, events: seq<Event>)
    requires |events| == 5
    ensures Run(s, events) == Step(Step(Step(Step(Step(s, events[0]), events[1]), events[2]), events[3]), events[4])
  {
    hide Step;
    assert events[..4][..3] == events[..3] && events[..3][..2] == events[..2];
    assert events[..2][..1] == events[..1] && events[..1][..0] == [];
    assert Run(s, events) == Step(Run(s, events[..4]), events[4]);
    assert Run(s, events[..4]) == Step(Run(s, events[..3]), events[3]);
    assert Run(s, events[..3]) == Step(Run(s, events[..2]), events[2]);
    assert Run(s, events[..2]) == Step(Run(s, events[..1]), events[1]);
    assert Run(s, events[..1]) == Step(Run(s, []), events[0]);
  }

  lemma ThirdSpills(uid: nat, a: Chan, b: Chan, c: Chan)
    ensures var held := Approved3(uid, a, b, c);
            var hs := InOrder(held, [1, 2, 3]);
            SpillsAt(Loaded(2), hs, 2) && Served(hs[2], hs[..2]) == 2 && hs[2].approved == Some(Seconds(60))
  {
    KeyIsThere(2);
    var hs := InOrder(Approved3(uid, a, b, c), [1, 2, 3]);
    assert hs[..2] == [hs[0], hs[1]] && hs[..2][..1] == [hs[0]] && hs[..1][..0] == [];
    assert hs[3..] == [];
  }

  lemma Ascending3()
    ensures Ascending({1, 2, 3}) == [1, 2, 3]
  {
    var ids := Ascending({1, 2, 3});
    assert ids[0] in ids && ids[1] in ids && ids[2] in ids;
  }

  /** Everything up to the event that publishes the second load. */
  function SevenRun(uid: nat): seq<Event> {
    Opening() + ThreeHeld(uid) + [LoadBegin(2), FromFifo(2, Keys())]
  }

  /** A run with three held requests, the last of them approved ahead for a window that also
      answers the other two: publishing the keys releases them with seven messages, one more
      than two for each. */
  lemma SevenForThree(uid: nat)
    ensures HelloFirst(SevenRun(uid) + [LoadEnd(2)])
    ensures var s := Run(Init(uid, Still), SevenRun(uid));
            && |s.held| == 3 && Settles(s, LoadEnd(2)).Some?
            && FinishLoad(Settles(s, LoadEnd(2)).value).1.Published?
            && var s2 := FinishLoad(Settles(s, LoadEnd(2)).value).0;
               && s2.held == s.held && Sent(ReleaseHeld(s2).log) == Sent(s2.log) + 7
               && TakesMoreThanTwoEach(s2)
  {
    hide Step, Shut, Opened, Idle;
    var s0 := Init(uid, Still);
    OpeningRun(uid, Still);
    RunOn(s0, Opening() + ThreeHeld(uid), [LoadBegin(2), FromFifo(2, Keys())]);
    RunOn(s0, Opening(), ThreeHeld(uid));
    var s1 := Run(s0, Opening());
    var a, b, c := ThreeHeldRun(s1, uid);
    SevenFrom(Run(s1, ThreeHeld(uid)), uid, a, b, c);
    StartsWithHello(SevenRun(uid) + [LoadEnd(2)]);
  }

  lemma SevenFrom(s: Agent, uid: nat, a: Chan, b: Chan, c: Chan)
    requires Shut(s, uid, Approved3(uid, a, b, c), 3)
    ensures var s1 := Run(s, [LoadBegin(2), FromFifo(2, Keys())]);
            && |s1.held| == 3 && Settles(s1, LoadEnd(2)).Some?
            && FinishLoad(Settles(s1, LoadEnd(2)).value).1.Published?
            && var s2 := FinishLoad(Settles(s1, LoadEnd(2)).value).0;
               && s2.held == s1.held && Sent(ReleaseHeld(s2).log) == Sent(s2.log) + 7
  {
    hide Step, Run, ReleaseHeld, Sent, Settles, FinishLoad, Releasing, SpillsAt, Settled, HeldInOrder,
         Approved3;
    LoadArrives(s, 2);
    var s1 := Run(s, [LoadBegin(2), FromFifo(2, Keys())]);
    EndsLoad(s1, 2);
    var s2 := FinishLoad(Settles(s1, LoadEnd(2)).value).0;
    AskedBySame(uid, a, b, c);
    ReadyToRelease(s2, uid);
    HeldSpill(s2, uid, a, b, c);
    SpillTakes(s2, 2);
  }

  lemma ReadyToRelease(s: Agent, uid: nat)
    requires s.store == Loaded(2) && s.approvals == NewManager(uid).(nextId := 4) && s.clock == Still
    requires SameUser(s.held, uid) && |s.held| == 3
    ensures Releasing(s)
  {
    forall blob | Authorize(s.store, blob).Some? ensures FindPublic(s.store.public, blob).Some? {
      assert FindKey(s.store, blob, 0).Some?;
    }
  }

  lemma AskedBySame(uid: nat, a: Chan, b: Chan, c: Chan)
    ensures SameUser(Approved3(uid, a, b, c), uid) && Approved3(uid, a, b, c).Keys == {1, 2, 3}
  {
  }

  lemma HeldSpill(s: Agent, uid: nat, a: Chan, b: Chan, c: Chan)
    requires s.held == Approved3(uid, a, b, c) && s.clock == Still && s.approvals.nextGrantId == 1
    ensures |HeldInOrder(s)| == 3 && SpillsAt(Loaded(2), HeldInOrder(s), 2)
    ensures HeldInOrder(s)[2].approved.Some? && Settled(s, HeldInOrder(s), 2) == 2
  {
    hide SpillsAt, Served, Approved3, Settled;
    AskedBySame(uid, a, b, c);
    ThirdSpills(uid, a, b, c);
    Ascending3();
    StillSettles(s, HeldInOrder(s), 2);
  }

  /** On a clock that stands still nothing runs out. */
  lemma {:induction false} StillEndures(p: HeldSign, hs: seq<HeldSign>, from: nat, hi: nat)
    ensures Enduring(p, hs, Still, from, hi) == Served(p, hs)
  {
    if hs != [] {
      StillEndures(p, hs[..|hs| - 1], from, hi);
    }
  }

  lemma StillSettles(s: Agent, hs: seq<HeldSign>, i: nat)
    requires s.clock == Still && s.approvals.nextGrantId == 1
    requires i < |hs| && hs[i].approved == Some(Seconds(60))
    ensures Settled(s, hs, i) == Served(hs[i], hs[..i])
  {
    hide Served, Enduring;
    StillEndures(hs[i], hs[..i], s.readings, s.readings + |hs| + 2);
  }

  // ---- a tick that overruns the channel ----

  /** A clock that moves on by more than a request's lifetime between any two readings. */
  function Jumping(k: nat): nat {
    200_000 * k
  }

  /** After `n` requests with no tick between: all still pending, though their places in the
      queue have expired. */
  ghost predicate Flooded(s: Agent, uid: nat, n: nat) {
    && s.phase == Running && s.handshake && s.gateOpen && s.load.None? && s.store == Loaded(1) && s.listing.None?
    && s.clock == Jumping && s.readings == 2 + n
    && s.approvals.uid == uid && s.approvals.grants == [] && s.approvals.nextId == 1 + n
    && |s.pending| == n && (forall id | id in s.pending :: id < 1 + n)
    && (forall r | r in s.approvals.queue :: r.deadline <= 200_000 * s.readings)
  }

  lemma NoneLive(m: Manager, now: nat)
    requires m.grants == [] && forall r | r in m.queue :: r.deadline <= now
    ensures Expire(m, now) == m.(queue := [])
  {
    NoneLiveIn(m.queue, now);
  }

  lemma {:induction false} NoneLiveIn(queue: seq<Request>, now: nat)
    requires forall r | r in queue :: r.deadline <= now
    ensures LiveRequests(queue, now) == []
  {
    if queue != [] { NoneLiveIn(queue[..|queue| - 1], now); }
  }

  lemma FloodsOne(s: Agent, uid: nat, n: nat)
    requires Flooded(s, uid, n) && n < 1000
    ensures Flooded(Step(s, FromClient(Asker(uid))), uid, n + 1)
  {
    hide FindPublic, Authorize, Expire, AuthorizedSignature, SubmitSign;
    var chan := s.nextChan;
    var s1 := Note(s.(nextChan := chan + 1), Delivered(chan, Asker(uid)));
    KeyIsThere(1);
    assert Step(s, FromClient(Asker(uid))) == SubmitSign(s1, chan, [1], [], 0, Asker(uid).peer, Scope(Asker(uid)));
    FloodsSubmit(s1, uid, n, chan);
  }

  lemma FloodsSubmit(s: Agent, uid: nat, n: nat, chan: Chan)
    requires Flooded(s, uid, n) && n < 1000
    ensures Flooded(SubmitSign(s, chan, [1], [], 0, Asker(uid).peer, Scope(Asker(uid))), uid, n + 1)
  {
    hide FindPublic, Authorize, Expire, AuthorizedSignature, SubmitSign;
    KeyIsThere(1);
    SubmitShape(s, chan, [1], [], 0, Asker(uid).peer, Scope(Asker(uid)));
    NoneLive(s.approvals, Now(s));
    assert 1 + n !in s.pending;
  }

  function Flood(uid: nat, n: nat): seq<Event> {
    seq(n, _ => FromClient(Asker(uid)))
  }

  lemma {:induction false} FloodRun(s: Agent, uid: nat, n: nat)
    requires Flooded(s, uid, 0) && n <= 1000
    ensures Flooded(Run(s, Flood(uid, n)), uid, n)
  {
    hide Step, Flooded;
    if n > 0 {
      FloodRun(s, uid, n - 1);
      assert Flood(uid, n)[..n - 1] == Flood(uid, n - 1);
      FloodsOne(Run(s, Flood(uid, n - 1)), uid, n - 1);
    }
  }

  lemma AllLapse(s: Agent, uid: nat, n: nat, closed: set<Chan>)
    requires Flooded(s, uid, n) && n < 1000
    ensures Lapsed(s, closed) == s.pending.Keys
  {
    hide Expire;
    NoneLive(s.approvals, Now(s));
  }

  /** The clients that have left: all but the last eight, since the server admits eight at a
      time. */
  ghost function Departed(s: Agent): set<Chan> {
    set id | id in s.pending && id + 8 < s.approvals.nextId :: s.pending[id].chan
  }

  /** A run whose clock jumps while no tick comes: 147 requests have lapsed, all but eight of
      their clients have left, and the tick that withdraws the requests sends more than the
      panel's channel holds. */
  lemma TickOverruns(uid: nat)
    ensures var events := Opening() + Flood(uid, 147);
            var s := Run(Init(uid, Jumping), events);
            var tick := Tick(Departed(s));
            && HelloFirst(events + [tick]) && s.phase.Running?
            && |s.pending| == 147 && Overruns(s, tick) && !Fits(s, tick)
  {
    hide Step, Inv, Fits, ListingOver, GrantsMoved;
    var events := Opening() + Flood(uid, 147);
    var s0 := Init(uid, Jumping);
    OpeningRun(uid, Jumping);
    RunOn(s0, Opening(), Flood(uid, 147));
    FloodRun(Run(s0, Opening()), uid, 147);
    var s := Run(s0, events);
    var tick := Tick(Departed(s));
    AllLapse(s, uid, 147, tick.closed);
    assert |s.pending.Keys| == |s.pending|;
    StartsWithHello(events + [tick]);
    EventFitsExactly(uid, Jumping, events, tick);
  }
}
