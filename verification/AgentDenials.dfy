/** What a denial is worth: the request is failed in that very event and is in no table
    afterwards, and no signature is ever sent for it. */
module AgentDenials {
  import opened Base
  import opened KeyStoreModel
  import opened FifoModel
  import opened ApprovalModel
  import opened ObserverModel
  import opened AgentModel
  import opened AgentSends
  import opened AgentTrace
  import opened AgentInvariant
  import opened AgentDrain
  import opened AgentSafety
  import opened AgentTheorems
  import opened AgentAnswers

  /** The panel says no to this prompt. */
  predicate Denies(c: Control, id: RequestId) {
    c == Deny(id) || c == UnlockCancelled(id)
  }

  // ---- the event itself ----

  /** The request that stands under this id. */
  ghost function Standing(s: Agent, id: RequestId): Chan
    requires id in s.pending || id in s.held
  {
    if id in s.pending then s.pending[id].chan else s.held[id].chan
  }

  /** Only `id` was taken out of the three tables, and nothing was put in. */
  ghost predicate OnlyTaken(s': Agent, s: Agent, id: RequestId) {
    && (forall k :: k in s'.pending <==> k in s.pending && k != id)
    && (forall k | k in s'.pending :: s'.pending[k] == s.pending[k])
    && (forall k :: k in s'.held <==> k in s.held && k != id)
    && (forall k | k in s'.held :: s'.held[k] == s.held[k])
    && (forall r :: r in s'.approvals.queue <==> r in s.approvals.queue && r.id != id)
    && s'.approvals.grants == s.approvals.grants
    && s'.store == s.store && s'.gateOpen == s.gateOpen && s'.load == s.load
  }

  lemma DeniedTables(s: Agent, id: RequestId)
    ensures OnlyTaken(Denied(s, id), s, id) && Denied(s, id).listing == s.listing
  {
    hide Disconnect;
    DisconnectTakes(s.approvals, id);
  }

  lemma DisconnectTakes(m: Manager, id: RequestId)
    ensures var m' := Disconnect(m, id);
            m'.grants == m.grants && forall r :: r in m'.queue <==> r in m.queue && r.id != id
  {
  }

  /** The listing of that id is released, any other is left. */
  lemma DenyTables(s: Agent, id: RequestId)
    ensures var s' := OnDeny(s, id);
            && OnlyTaken(s', s, id)
            && (s.listing.Some? && s.listing.value.id == id ==> s'.listing.None?)
            && (s.listing.None? || s.listing.value.id != id ==> s' == Denied(s, id))
  {
    hide ReleaseListing, Disconnect, Sent, Refusals;
    var s1 := Denied(s, id);
    DeniedTables(s, id);
    ReleaseListingSends(s1, "cancelled");
    assert OnDeny(s, id) ==
           if s1.listing.Some? && s1.listing.value.id == id then ReleaseListing(s1, "cancelled") else s1;
  }

  lemma DenyReplies(s: Agent, c: Control, id: RequestId)
    requires Inv(s) && s.phase.Running? && s.handshake && Denies(c, id) && (id in s.pending || id in s.held)
    ensures AnsweredWith(Step(s, FromPanel(c)), Standing(s, id), Failure)
  {
    hide Inv, Accepted, ReleaseListing, Denied, Observe, Disconnect, Step;
    var s1 := Note(s, Told(c));
    var s2 := Denied(s1, id);
    OnlyOneTable(s, id);
    DeniedReplies(s1, id);
    StepAccepted(s, FromPanel(c));
    DenyIs(s1, id);
    DenyStep(s, c, id);
    ReleaseListingExtends(s2, "cancelled");
    AnswerKept(Step(s, FromPanel(c)).log, s.approvals.uid, s2.log, Standing(s, id));
  }

  lemma DeniedReplies(s: Agent, id: RequestId)
    requires (id in s.pending || id in s.held) && !(id in s.pending && id in s.held)
    ensures AnsweredWith(Denied(s, id), Standing(s, id), Failure)
  {
    hide Disconnect;
  }

  lemma DenyIs(s: Agent, id: RequestId)
    ensures var s1 := Denied(s, id);
            OnDeny(s, id) ==
            if s1.listing.Some? && s1.listing.value.id == id then ReleaseListing(s1, "cancelled") else s1
  {
    hide ReleaseListing;
  }

  lemma AnswerKept(log: Log, uid: nat, past: Log, c: Chan)
    requires Accepted(log, uid) && Extends(log, past) && c in Observe(past).book.answered
    ensures c in Observe(log).book.answered && Observe(log).book.answered[c] == Observe(past).book.answered[c]
  {
    AnswerStays(log, uid, past, c);
  }

  lemma OnlyOneTable(s: Agent, id: RequestId)
    requires Inv(s)
    ensures !(id in s.pending && id in s.held)
  {
  }

  lemma {:induction false} ReplyEachExtends(s: Agent, chans: seq<Chan>, r: Response)
    ensures Extends(ReplyEach(s, chans, r).log, s.log)
  {
    if chans != [] { ReplyEachExtends(s, chans[..|chans| - 1], r); }
  }

  lemma ReleaseListingExtends(s: Agent, reason: string)
    ensures Extends(ReleaseListing(s, reason).log, s.log)
  {
    if s.listing.Some? {
      ReplyEachExtends(s.(listing := None), s.listing.value.waiting, Listing(ListKeys(s.store.public)));
    }
  }

  /** In every run, the event that brings the denial of a pending or held request answers it
      with a failure, takes it out of every table, and touches no other request. */
  lemma DenialsTakeEffect(uid: nat, clock: nat -> nat, events: seq<Event>, c: Control, id: RequestId)
    requires HelloFirst(events + [FromPanel(c)]) && Denies(c, id)
    requires var s := Run(Init(uid, clock), events);
             s.phase.Running? && (id in s.pending || id in s.held)
    ensures var s := Run(Init(uid, clock), events);
            var s' := Run(Init(uid, clock), events + [FromPanel(c)]);
            AnsweredWith(s', Standing(s, id), Failure) && OnlyTaken(s', s, id)
  {
    hide Inv, Step, AnsweredWith, OnlyTaken;
    var e := FromPanel(c);
    assert (events + [e])[..|events|] == events;
    HelloFirstPrefix(events + [e], |events|);
    RunKeeps(uid, clock, events);
    var s := Run(Init(uid, clock), events);
    assert Polite(s, e);
    StandsAfterHello(s, id);
    DenyReplies(s, c, id);
    DenyTables(Note(s, Told(c)), id);
    DenyStep(s, c, id);
    TakenAlike(Step(s, e), s, Note(s, Told(c)), id);
  }

  lemma DenyStep(s: Agent, c: Control, id: RequestId)
    requires s.phase.Running? && Denies(c, id)
    ensures Step(s, FromPanel(c)) == OnDeny(Note(s, Told(c)), id)
  {
    hide OnDeny;
  }

  lemma TakenAlike(s': Agent, s: Agent, s1: Agent, id: RequestId)
    requires OnlyTaken(s', s1, id) && s1 == s.(log := s1.log)
    ensures OnlyTaken(s', s, id)
  {
  }

  /** Before `hello` nothing is pending or held. */
  lemma StandsAfterHello(s: Agent, id: RequestId)
    requires Inv(s) && s.phase.Running? && (id in s.pending || id in s.held)
    ensures s.handshake
  {
  }

  // ---- over the whole log ----

  /** The requests whose current prompt the panel has denied. */
  ghost function Refused(log: Log): set<Chan> {
    if log.Empty? then {}
    else if log.last.Told? then Refused(log.past) + RefusedBy(Observe(log.past).book, log.last.control)
    else Refused(log.past)
  }

  ghost function RefusedBy(b: Book, c: Control): set<Chan> {
    if (c.Deny? || c.UnlockCancelled?) && IsCurrent(b, c.id) then {b.prompts[c.id]} else {}
  }

  /** Every reply to a request after the denial of its prompt is a failure. */
  ghost predicate DenialsHold(log: Log) {
    log.Then? ==>
      && DenialsHold(log.past)
      && (log.last.Replied? && log.last.chan in Refused(log.past) ==> log.last.response == Failure)
  }

  lemma {:induction false} DenialsHoldAt(log: Log, past: Log, chan: Chan, r: Response)
    requires DenialsHold(log) && Extends(log, Then(past, Replied(chan, r))) && chan in Refused(past)
    ensures r == Failure
  {
    if log != Then(past, Replied(chan, r)) { DenialsHoldAt(log.past, past, chan, r); }
  }

  /** `log'` continues `log` without hearing from the panel. */
  predicate Unheard(log': Log, log: Log) {
    log' == log || (log'.Then? && !log'.last.Told? && Unheard(log'.past, log))
  }

  lemma {:induction false} AddsUnheard(log': Log, log: Log, keys: seq<(Blob, seq<byte>)>)
    requires Adds(log', log, keys)
    ensures Unheard(log', log)
  {
    if log' != log { AddsUnheard(log'.past, log, keys); }
  }

  lemma {:induction false} UnheardOn(a: Log, b: Log, c: Log)
    requires Unheard(a, b) && Unheard(b, c)
    ensures Unheard(a, c)
  {
    if a != b { UnheardOn(a.past, b, c); }
  }

  lemma QuietUnheard(s': Agent, s: Agent)
    requires Quiet(s', s)
    ensures Unheard(s'.log, s.log)
  {
    AddsUnheard(s'.log, s.log, Names(s.store.public));
  }

  /** Everyone refused so far has been answered. */
  ghost predicate AllFailed(log: Log) {
    DenialsHold(log) && forall c | c in Refused(log) :: c in Observe(log).book.answered
  }

  lemma {:induction false} UnheardHolds(log': Log, log: Log, uid: nat)
    requires Unheard(log', log) && Accepted(log', uid) && AllFailed(log)
    ensures AllFailed(log') && Refused(log') == Refused(log)
  {
    if log' != log {
      UnheardHolds(log'.past, log, uid);
      assert log'.last.Replied? ==> log'.last.chan !in Refused(log'.past);
    }
  }

  // ---- each event hears at most one message, first ----

  lemma {:induction false} AnnounceUnheard(s: Agent, epoch: nat, public: seq<PublicIdentity>)
    ensures Unheard(AnnounceEach(s, epoch, public).log, s.log)
  {
    if public != [] { AnnounceUnheard(s, epoch, public[..|public| - 1]); }
  }

  lemma FinishLoadUnheard(s: Agent)
    ensures Unheard(FinishLoad(s).0.log, s.log)
  {
    hide LoadInto, AnnounceEach;
    if s.load.Some? && s.load.value.payload.Some? {
      var (store, ok) := LoadInto(s.store, s.load.value);
      AnnounceUnheard(s.(load := None, store := store, gateOpen := true), s.load.value.epoch, store.public);
    }
  }

  lemma SettleLoadUnheard(s: Agent)
    ensures Unheard(SettleLoad(s).log, s.log)
  {
    hide FinishLoad, ReleaseHeld, CancelHeld, ReleaseListing, Quiet, Unheard;
    FinishLoadUnheard(s);
    var (s1, outcome) := FinishLoad(s);
    if outcome.Published? {
      ReleaseHeldQuiet(s1);
      ReleaseListingQuiet(ReleaseHeld(s1), "released");
      QuietOn(SettleLoad(s), ReleaseHeld(s1), s1);
      QuietUnheard(SettleLoad(s), s1);
      UnheardOn(SettleLoad(s).log, s1.log, s.log);
    } else if outcome.LoadRefused? {
      CancelQuiet(s1, "load-failed");
      QuietUnheard(SettleLoad(s), s1);
      UnheardOn(SettleLoad(s).log, s1.log, s.log);
    }
  }

  lemma FinishUnheard(s: Agent)
    ensures Unheard(Finish(s).log, s.log)
  {
    hide FailPending, CancelHeld, ReleaseListing, Quiet;
    var s1 := s.(approvals := InvalidateAll(s.approvals), load := None);
    DrainQuiet(s1, "shutdown");
    QuietUnheard(ReleaseListing(CancelHeld(FailPending(s1), "shutdown"), "shutdown"), s1);
  }

  lemma DeactivateUnheard(s: Agent, store: Store, reason: string)
    ensures Unheard(Deactivate(s, store, reason).log, s.log)
  {
    hide FailPending, CancelHeld, ReleaseListing, Quiet;
    var s1 := s.(gateOpen := false, load := None, store := store, approvals := InvalidateAll(s.approvals));
    DrainQuiet(s1, reason);
    QuietUnheard(Deactivate(s, store, reason), s1);
  }

  lemma LoadBeginUnheard(s: Agent, epoch: nat, loadId: seq<byte>)
    ensures Unheard(OnLoadBegin(s, epoch, loadId).log, s.log)
  {
    hide FailPending, Quiet, ValidNonce;
    var s1 := s.(gateOpen := false, approvals := InvalidateAll(s.approvals));
    FailPendingQuiet(s1);
    QuietUnheard(FailPending(s1), s1);
  }

  lemma LoadEndUnheard(s: Agent, epoch: nat, ok: bool)
    ensures Unheard(OnLoadEnd(s, epoch, ok).log, s.log)
  {
    hide SettleLoad, CancelHeld, ReleaseListing, Quiet;
    if s.load.Some? && s.load.value.epoch == epoch {
      if ok {
        SettleLoadUnheard(Ended(s));
        UnheardOn(OnLoadEnd(s, epoch, ok).log, Ended(s).log, s.log);
      } else {
        var s1 := s.(load := None, store := Lock(s.store, epoch), gateOpen := false);
        CancelQuiet(s1, "load-failed");
        QuietUnheard(OnLoadEnd(s, epoch, ok), s1);
      }
    }
  }

  lemma ControlUnheard(s: Agent, c: Control)
    ensures Unheard(OnControl(s, c).log, Then(s.log, Told(c)))
  {
    hide Quiet, Deactivate, Finish, OnApprove, OnDeny, OnLoadBegin, OnLoadEnd;
    var s1 := Note(s, Told(c));
    match c
    case Hello =>
    case Options(_) =>
    case RevokeGrants =>
    case RevokeOne(_) =>
    case VaultLocked(epoch) => DeactivateUnheard(s1, Lock(s.store, epoch), "locked");
    case VaultLoggedOut => DeactivateUnheard(s1, Logout(s.store, SatAdd(s.store.tracker.epoch, 1)), "logged-out");
    case ApproveRequest(id, d) =>
      ApproveQuiet(s1, id, d);
      QuietUnheard(OnApprove(s1, id, d), s1);
    case Deny(id) =>
      DenyQuiet(s1, id);
      QuietUnheard(OnDeny(s1, id), s1);
    case UnlockCancelled(id) =>
      DenyQuiet(s1, id);
      QuietUnheard(OnDeny(s1, id), s1);
    case Shutdown => FinishUnheard(s1);
    case KeyLoadBegin(epoch, loadId) => LoadBeginUnheard(s1, epoch, loadId);
    case KeyLoadEnd(epoch, ok) => LoadEndUnheard(s1, epoch, ok);
  }

  lemma TickUnheard(s: Agent, closed: set<Chan>)
    ensures Unheard(OnTick(s, closed).log, s.log)
  {
    hide Quiet, Unheard, SettleLoad, Withdrawn, Dropped, Relisted, EmitGrants, OnTick;
    var now := Now(s);
    var s1 := ReadClock(s).(approvals := Expire(s.approvals, now));
    ReadQuiet(s);
    QuietUnheard(ReadClock(s), s);
    var s2 := ExpireLoad(s1, now);
    if s1.load.Some? { SettleLoadUnheard(s1.(load := Some(s1.load.value.(payload := Some(ReadFailed))))); }
    SelfUnheard(s1.log);
    UnheardOn(s2.log, s1.log, s.log);
    TickEndQuiet(s2, closed, now);
    TickStages(s, closed);
    QuietUnheard(OnTick(s, closed), s2);
    UnheardOn(OnTick(s, closed).log, s2.log, s.log);
  }

  lemma SelfUnheard(log: Log)
    ensures Unheard(log, log)
  {
  }

  /** What the event hears, if anything. */
  function Hears(e: Event): Option<Control> {
    match e
    case FromPanel(c) => Some(c)
    case PanelClosed => Some(Shutdown)
    case _ => None
  }

  lemma StepUnheard(s: Agent, e: Event)
    requires s.phase.Running?
    ensures var c := Hears(e);
            Unheard(Step(s, e).log, if c.Some? then Then(s.log, Told(c.value)) else s.log)
  {
    hide Quiet, OnControl, Finish, HandleClient, SettleLoad, OnTick;
    match e
    case FromPanel(c) => ControlUnheard(s, c);
    case PanelClosed => FinishUnheard(Note(s, Told(Shutdown)));
    case PanelGarbled =>
    case FromClient(c) =>
      ClientQuiet(s, c);
      QuietUnheard(HandleClient(s, c), s);
    case FromFifo(epoch, payload) =>
      if s.load.Some? { SettleLoadUnheard(s.(load := Some(s.load.value.(payload := Some(payload))))); }
    case Tick(closed) => TickUnheard(s, closed);
  }

  // ---- nobody refused is ever signed for ----

  /** The current prompt of an unanswered request is that of a pending or held one. */
  lemma CurrentStands(s: Agent, id: RequestId)
    requires Inv(s) && IsCurrent(Observe(s.log).book, id)
    ensures id in s.pending || id in s.held
    ensures Observe(s.log).book.prompts[id] == Standing(s, id)
  {
    var b := Observe(s.log).book;
    PromptsAreSigns(s.log, s.approvals.uid, id);
    var c := b.prompts[id];
    assert c !in Waiting(s);
    assert Placed(c, s.pending, s.held, b);
  }

  /** Only sign requests are ever prompted for. */
  lemma {:induction false} PromptsAreSigns(log: Log, uid: nat, id: RequestId)
    requires Accepted(log, uid) && id in Observe(log).book.prompts
    ensures var b := Observe(log).book;
            b.prompts[id] in b.requests && b.requests[b.prompts[id]].request.SignData?
  {
    hide Justified, GrantJustified;
    if id in Observe(log.past).book.prompts { PromptsAreSigns(log.past, uid, id); }
  }

  lemma RefusedAnswered(s: Agent, c: Control)
    requires Inv(s) && s.phase.Running? && s.handshake && AllFailed(s.log)
    ensures AllFailed(Step(s, FromPanel(c)).log)
  {
    hide Inv, Accepted, Observe, Step, AllFailed, IsCurrent, Unheard;
    var b := Observe(s.log).book;
    StepAccepted(s, FromPanel(c));
    StepUnheard(s, FromPanel(c));
    if (c.Deny? || c.UnlockCancelled?) && IsCurrent(b, c.id) {
      CurrentStands(s, c.id);
      DenyHolds(s, c, c.id);
    } else {
      HearsNothing(s.log, c);
      UnheardHolds(Step(s, FromPanel(c)).log, Then(s.log, Told(c)), s.approvals.uid);
    }
  }

  /** The failure is the first thing the denial brings. */
  lemma DenyHolds(s: Agent, c: Control, id: RequestId)
    requires Inv(s) && s.phase.Running? && s.handshake && AllFailed(s.log) && Denies(c, id)
    requires IsCurrent(Observe(s.log).book, id) && (id in s.pending || id in s.held)
    requires Observe(s.log).book.prompts[id] == Standing(s, id)
    ensures AllFailed(Step(s, FromPanel(c)).log)
  {
    var s1 := Note(s, Told(c));
    var s2 := Denied(s1, id);
    OnlyOneTable(s, id);
    var log2 := Then(Then(s.log, Told(c)), Replied(Standing(s, id), Failure));
    assert s2.log == log2;
    FailedNow(s.log, c, id);
    StepAccepted(s, FromPanel(c));
    hide Inv, Accepted, AllFailed, Denied, ReleaseListing;
    DenyStep(s, c, id);
    DenyIs(s1, id);
    ReleaseListingQuiet(s2, "cancelled");
    QuietUnheard(ReleaseListing(s2, "cancelled"), s2);
    SelfUnheard(log2);
    UnheardHolds(Step(s, FromPanel(c)).log, log2, s.approvals.uid);
  }

  lemma FailedNow(log: Log, c: Control, id: RequestId)
    requires AllFailed(log) && Denies(c, id) && IsCurrent(Observe(log).book, id)
    ensures AllFailed(Then(Then(log, Told(c)), Replied(Observe(log).book.prompts[id], Failure)))
  {
  }

  lemma StepFailed(s: Agent, e: Event)
    requires Inv(s) && Polite(s, e) && AllFailed(s.log)
    ensures AllFailed(Step(s, e).log)
  {
    hide Inv, Step, AllFailed;
    if s.phase.Running? {
      StepAccepted(s, e);
      StepUnheard(s, e);
      if e.FromPanel? && s.handshake {
        RefusedAnswered(s, e.control);
      } else {
        var c := Hears(e);
        if c.Some? {
          HearsNothing(s.log, c.value);
          UnheardHolds(Step(s, e).log, Then(s.log, Told(c.value)), s.approvals.uid);
        } else {
          UnheardHolds(Step(s, e).log, s.log, s.approvals.uid);
        }
      }
    } else {
      StoppedStays(s, e);
    }
  }

  lemma HearsNothing(log: Log, c: Control)
    requires AllFailed(log) && !((c.Deny? || c.UnlockCancelled?) && IsCurrent(Observe(log).book, c.id))
    ensures AllFailed(Then(log, Told(c)))
  {
  }

  lemma {:induction false} AlwaysFailed(uid: nat, clock: nat -> nat, events: seq<Event>)
    requires HelloFirst(events)
    ensures AllFailed(Run(Init(uid, clock), events).log)
    decreases |events|
  {
    hide Step, Inv;
    if events != [] {
      var n := |events| - 1;
      var front, e := events[..n], events[n];
      HelloFirstPrefix(events, n);
      AlwaysFailed(uid, clock, front);
      RunKeeps(uid, clock, front);
      var s := Run(Init(uid, clock), front);
      if s.phase.Running? {
        assert Polite(s, e);
        StepFailed(s, e);
      } else {
        StoppedStays(s, e);
      }
    }
  }

  /** In every run: a reply sent to a request after the panel denied its current prompt is a
      failure. So no signature is ever sent for it. */
  lemma NeverSignedAfterDenial(uid: nat, clock: nat -> nat, events: seq<Event>, past: Log, chan: Chan, r: Response)
    requires HelloFirst(events)
    requires Extends(Run(Init(uid, clock), events).log, Then(past, Replied(chan, r))) && chan in Refused(past)
    ensures r == Failure
  {
    AlwaysFailed(uid, clock, events);
    DenialsHoldAt(Run(Init(uid, clock), events).log, past, chan, r);
  }
}
