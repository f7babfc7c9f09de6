/** When releasing held requests takes more than two messages for each of them. */
module AgentSpill {
  import opened Base
  import opened KeyStoreModel
  import opened ApprovalModel
  import opened ObserverModel
  import opened AgentModel
  import opened AgentSends
  import opened AgentArms
  import opened AgentRelease

  // ---- the condition, on the held requests in the order they were raised ----

  function InOrder(held: map<RequestId, HeldSign>, ids: seq<RequestId>): seq<HeldSign>
    requires forall id | id in ids :: id in held
  {
    seq(|ids|, i requires 0 <= i < |ids| => held[ids[i]])
  }

  /** Its key is there and nobody has approved it yet. */
  predicate Plain(store: Store, h: HeldSign) {
    Authorize(store, h.blob).Some? && h.approved.None?
  }

  /** Its key is there and it was approved ahead for a window. */
  predicate Opener(store: Store, h: HeldSign) {
    Authorize(store, h.blob).Some? && h.approved.Some? && OpensGrant(h.approved.value, h.scope)
  }

  /** A grant opened for `p` answers `h`: same key, kind of signature, user and program. */
  predicate Serves(p: HeldSign, h: HeldSign) {
    && Grantable(h.scope) && p.blob == h.blob && p.scope.kind == h.scope.kind
    && SharesGrantScope(p.peer, h.peer)
  }

  function Served(p: HeldSign, hs: seq<HeldSign>): (n: nat)
    ensures n <= |hs|
  {
    if hs == [] then 0 else Served(p, hs[..|hs| - 1]) + Count(Serves(p, hs[|hs| - 1]))
  }

  /** One request approved ahead for a window, all others unapproved, and the window answers
      at least two of those raised before it and none of those raised after it. */
  predicate SpillsAt(store: Store, hs: seq<HeldSign>, i: nat) {
    && i < |hs| && Opener(store, hs[i])
    && (forall j | 0 <= j < |hs| && j != i :: Plain(store, hs[j]))
    && Served(hs[i], hs[..i]) >= 2 && Served(hs[i], hs[i + 1..]) == 0
  }

  predicate Spills(store: Store, hs: seq<HeldSign>) {
    exists i :: 0 <= i < |hs| && SpillsAt(store, hs, i)
  }

  // ---- releasing one request, seen from the queue and the grants ----

  /** What a release needs to know of the state, kept by every part of it. */
  ghost predicate Ready(s: Agent) {
    && (forall blob | Authorize(s.store, blob).Some? :: FindPublic(s.store.public, blob).Some?)
    && (forall r | r in s.approvals.queue :: r.id < s.approvals.nextId && r.epoch == s.store.tracker.epoch)
  }

  /** Nothing moved but the clock, the log, the approvals and the pending table. */
  ghost predicate Along(s': Agent, s: Agent) {
    && s'.store == s.store && s'.clock == s.clock && s.readings <= s'.readings
    && s'.approvals.uid == s.approvals.uid
  }

  ghost function Asking(s: Agent, h: HeldSign): Request {
    NewRequest(s.approvals, s.store.tracker.epoch, h.blob, h.peer, h.scope, Now(s))
  }

  function Pushed(m: Manager, r: Request): Manager {
    m.(nextId := m.nextId + 1, queue := m.queue + [r])
  }

  /** A grant the manager holds answers this request. */
  ghost predicate GrantAnswers(s: Agent, h: HeldSign) {
    Covered(Expire(s.approvals, Now(s)).grants, s.store.tracker.epoch, h.blob, h.peer, h.scope)
  }

  lemma PlainRelease(s: Agent, id: RequestId, h: HeldSign)
    requires Ready(s) && Plain(s.store, h) && h.peer.uid == s.approvals.uid
    ensures var s' := ReleaseOne(s, id, h);
            var m := Expire(s.approvals, Now(s));
            && Along(s', s) && Ready(s') && s'.readings == s.readings + 1
            && (Reprompts(s, h) <==> !GrantAnswers(s, h) && !NoRoom(m))
            && s'.approvals == if Reprompts(s, h) then Pushed(m, Asking(s, h)) else m
  {
    hide FindPublic, Authorize, Expire, AuthorizedSignature, Covered, SubmitSign, Submit;
    var s1 := Emit(s, RequestCancelled(id, "released"));
    SubmitShape(s1, h.chan, h.blob, h.message, h.flags, h.peer, h.scope);
    SubmitCases(s.approvals, s.store.tracker.epoch, h.blob, h.peer, h.scope, Now(s));
    ExpireKeepsIds(s.approvals, Now(s));
  }

  lemma ExpireKeepsIds(m: Manager, now: nat)
    ensures var m' := Expire(m, now);
            && m'.uid == m.uid && m'.nextId == m.nextId && m'.nextGrantId == m.nextGrantId
            && forall r | r in m'.queue :: r in m.queue
  {
  }

  ghost function NextNow(s: Agent): nat {
    Min(s.clock(s.readings + 1), U64_MAX)
  }

  /** The manager once a request approved ahead has been queued and consumed. */
  ghost function Consumed(s: Agent, h: HeldSign, d: GrantDuration): Manager {
    var m := Expire(s.approvals, Now(s));
    var m := Expire(m.(nextId := m.nextId + 1), NextNow(s));
    if Asking(s, h).deadline > NextNow(s) && OpensGrant(d, h.scope) && m.nextGrantId < U64_MAX then
      m.(nextGrantId := m.nextGrantId + 1,
         grants := m.grants + [Grant(m.nextGrantId, h.blob, h.peer, h.scope.kind, s.store.tracker.epoch,
                                     Expiry(d, NextNow(s)))])
    else m
  }

  lemma ApprovedRelease(s: Agent, id: RequestId, h: HeldSign)
    requires Ready(s) && Authorize(s.store, h.blob).Some? && h.approved.Some? && h.peer.uid == s.approvals.uid
    ensures var s' := ReleaseOne(s, id, h);
            var m := Expire(s.approvals, Now(s));
            && Along(s', s) && Ready(s') && !Reprompts(s, h)
            && (!GrantAnswers(s, h) && !NoRoom(m) ==> s'.readings == s.readings + 2)
            && s'.approvals == if GrantAnswers(s, h) || NoRoom(m) then m else Consumed(s, h, h.approved.value)
  {
    hide FindPublic, Authorize, Expire, AuthorizedSignature, Covered, SubmitApproved, ApproveFresh;
    var s1 := Emit(s, RequestCancelled(id, "released"));
    SubmitApprovedShape(s1, h, h.approved.value);
    ExpireKeepsIds(s.approvals, Now(s));
    if !GrantAnswers(s, h) && !NoRoom(Expire(s.approvals, Now(s))) {
      FreshRelease(s1, h, h.approved.value);
    }
  }

  lemma FreshRelease(s: Agent, h: HeldSign, d: GrantDuration)
    requires Ready(s)
    ensures var s1 := Expired(s);
            var s' := ApproveFresh(s1, Asking(s, h), h.chan, d).0;
            && Along(s', s) && Ready(s') && s'.readings == s.readings + 2 && s'.approvals == Consumed(s, h, d)
  {
    hide FindPublic, Authorize, Expire, ApproveFresh, Consume, Observe;
    var s1 := Expired(s);
    var r := Asking(s, h);
    ExpireKeepsIds(s.approvals, Now(s));
    ApproveFreshShape(s1, r, h.chan, d);
    var m := s1.approvals.(nextId := s1.approvals.nextId + 1);
    ExpireKeepsIds(m, NextNow(s));
    ConsumeOpens(IdSkipped(s1), h.chan, r, d);
  }

  lemma ConsumeOpens(s: Agent, chan: Chan, r: Request, d: GrantDuration)
    ensures var s1 := Expired(s);
            var s' := Consume(s1, chan, r, d).0;
            var m := s1.approvals;
            && s' == s1.(approvals := s'.approvals, log := s'.log)
            && s'.approvals ==
               if OpensGrant(d, r.scope) && m.nextGrantId < U64_MAX then
                 m.(nextGrantId := m.nextGrantId + 1,
                    grants := m.grants +
                              [Grant(m.nextGrantId, r.blob, r.peer, r.scope.kind, r.epoch, Expiry(d, Now(s)))])
               else m
  {
    hide Expire;
    assert Observe(Expired(s).log).now == Now(s);
  }

  lemma UnauthorisedRelease(s: Agent, id: RequestId, h: HeldSign)
    requires Ready(s) && Authorize(s.store, h.blob).None?
    ensures var s' := ReleaseOne(s, id, h);
            && Along(s', s) && Ready(s') && !Reprompts(s, h)
            && s'.readings == s.readings && s'.approvals == s.approvals
  {
  }

  // ---- how much the queue and the grants can hold ----

  function Plains(store: Store, hs: seq<HeldSign>): (n: nat)
    ensures n <= |hs|
  {
    if hs == [] then 0 else Plains(store, hs[..|hs| - 1]) + Count(Plain(store, hs[|hs| - 1]))
  }

  ghost predicate HasOpener(store: Store, hs: seq<HeldSign>) {
    exists i :: 0 <= i < |hs| && Opener(store, hs[i])
  }

  ghost predicate SameUser(held: map<RequestId, HeldSign>, uid: nat) {
    forall id | id in held :: held[id].peer.uid == uid
  }

  /** One request: at most one more in the queue, and then a prompt; a grant only from an
      opener. */
  ghost predicate Bounded(s': Agent, s: Agent, h: HeldSign) {
    && Along(s', s) && Ready(s')
    && |s'.approvals.queue| <= |s.approvals.queue| + Count(Reprompts(s, h))
    && (Reprompts(s, h) ==> Plain(s.store, h))
    && (s'.approvals.grants != [] ==> s.approvals.grants != [] || Opener(s.store, h))
  }

  lemma ReleaseBounded(s: Agent, id: RequestId, h: HeldSign)
    requires Ready(s) && h.peer.uid == s.approvals.uid
    ensures Bounded(ReleaseOne(s, id, h), s, h)
  {
    hide Ready, ReleaseOne, Authorize, Covered, Along;
    if Authorize(s.store, h.blob).None? {
      UnauthorisedRelease(s, id, h);
    } else if h.approved.None? {
      PlainRelease(s, id, h);
    } else {
      ApprovedRelease(s, id, h);
    }
  }

  lemma {:induction false} Tally(s: Agent, held: map<RequestId, HeldSign>, ids: seq<RequestId>)
    requires Ready(s) && SameUser(held, s.approvals.uid) && s.approvals.queue == [] && s.approvals.grants == []
    requires forall id | id in ids :: id in held
    ensures var s' := ReleaseEach(s, held, ids);
            var hs := InOrder(held, ids);
            && Along(s', s) && Ready(s')
            && |s'.approvals.queue| <= Reprompted(s, held, ids) <= Plains(s.store, hs)
            && (s'.approvals.grants != [] ==> HasOpener(s.store, hs))
  {
    hide Ready, ReleaseOne, Reprompts, Plain, Opener;
    if ids != [] {
      var front, id := ids[..|ids| - 1], ids[|ids| - 1];
      Tally(s, held, front);
      var s1 := ReleaseEach(s, held, front);
      ReleaseBounded(s1, id, held[id]);
      assert InOrder(held, ids)[..|ids| - 1] == InOrder(held, front);
      OpenersKept(s.store, held, ids);
    }
  }

  lemma OpenersKept(store: Store, held: map<RequestId, HeldSign>, ids: seq<RequestId>)
    requires ids != [] && forall id | id in ids :: id in held
    ensures HasOpener(store, InOrder(held, ids[..|ids| - 1])) ==> HasOpener(store, InOrder(held, ids))
    ensures Opener(store, held[ids[|ids| - 1]]) ==> HasOpener(store, InOrder(held, ids))
  {
    hide Opener;
    var hs, front := InOrder(held, ids), InOrder(held, ids[..|ids| - 1]);
    assert hs[|ids| - 1] == held[ids[|ids| - 1]];
    if HasOpener(store, front) {
      var i :| 0 <= i < |front| && Opener(store, front[i]);
      assert hs[i] == front[i];
    }
  }

  lemma {:induction false} OneMissing(store: Store, hs: seq<HeldSign>, i: nat)
    requires i < |hs| && !Plain(store, hs[i])
    ensures Plains(store, hs) <= |hs| - 1
  {
    if i < |hs| - 1 { OneMissing(store, hs[..|hs| - 1], i); }
  }

  lemma {:induction false} TwoMissing(store: Store, hs: seq<HeldSign>, i: nat, j: nat)
    requires i < j < |hs| && !Plain(store, hs[i]) && !Plain(store, hs[j])
    ensures Plains(store, hs) <= |hs| - 2
  {
    if j < |hs| - 1 { TwoMissing(store, hs[..|hs| - 1], i, j); } else { OneMissing(store, hs[..|hs| - 1], i); }
  }

  lemma OthersPlain(store: Store, hs: seq<HeldSign>, i: nat)
    requires i < |hs| && Opener(store, hs[i]) && Plains(store, hs) == |hs| - 1
    ensures forall j | 0 <= j < |hs| && j != i :: Plain(store, hs[j])
  {
    forall j | 0 <= j < |hs| && j != i ensures Plain(store, hs[j]) {
      if !Plain(store, hs[j]) { TwoMissing(store, hs, if i < j then i else j, if i < j then j else i); }
    }
  }

  // ---- the queued requests one grant answers ----

  function Matching(queue: seq<Request>, g: Grant): (n: nat)
    ensures n <= |queue|
  {
    if queue == [] then 0
    else
      var r := queue[|queue| - 1];
      Matching(queue[..|queue| - 1], g) + Count(GrantCovers(g, r.epoch, r.blob, r.peer, r.scope))
  }

  lemma {:induction false} MatchingKept(queue: seq<Request>, p: Request -> bool, g: Grant)
    ensures Matching(Keep(queue, p), g) <= Matching(queue, g)
  {
    if queue != [] {
      var front, r := queue[..|queue| - 1], queue[|queue| - 1];
      MatchingKept(front, p, g);
      assert (Keep(front, p) + [r])[..|Keep(front, p)|] == Keep(front, p);
    }
  }

  lemma MatchingExpire(m: Manager, now: nat, g: Grant)
    ensures Matching(Expire(m, now).queue, g) <= Matching(m.queue, g)
  {
    MatchingKept(m.queue, (r: Request) => r.deadline > now, g);
  }

  lemma MatchingPushed(m: Manager, r: Request, g: Grant)
    ensures Matching(Pushed(m, r).queue, g) ==
            Matching(m.queue, g) + Count(GrantCovers(g, r.epoch, r.blob, r.peer, r.scope))
  {
    assert (m.queue + [r])[..|m.queue|] == m.queue;
  }

  /** No grant but this one. */
  ghost predicate Only(grants: seq<Grant>, g: Grant) {
    forall x | x in grants :: x == g
  }

  lemma {:induction false} CoveredAreMatching(queue: seq<Request>, grants: seq<Grant>, g: Grant)
    requires Only(grants, g)
    ensures |CoveredRequests(queue, grants)| <= Matching(queue, g)
    ensures g in grants ==> |CoveredRequests(queue, grants)| == Matching(queue, g)
  {
    if queue != [] {
      CoveredAreMatching(queue[..|queue| - 1], grants, g);
      OnlyCovers(grants, g, queue[|queue| - 1]);
    }
  }

  lemma OnlyCovers(grants: seq<Grant>, g: Grant, r: Request)
    requires Only(grants, g)
    ensures RequestCovered(grants, r) ==> GrantCovers(g, r.epoch, r.blob, r.peer, r.scope)
    ensures g in grants && GrantCovers(g, r.epoch, r.blob, r.peer, r.scope) ==> RequestCovered(grants, r)
  {
    hide GrantCovers;
    if RequestCovered(grants, r) {
      var i :| 0 <= i < |grants| && GrantCovers(grants[i], r.epoch, r.blob, r.peer, r.scope);
      assert grants[i] in grants;
    }
    if g in grants {
      var i :| 0 <= i < |grants| && grants[i] == g;
    }
  }

  /** The grant that approving `p` opens. */
  predicate GrantOf(g: Grant, p: HeldSign, epoch: nat) {
    g.blob == p.blob && g.peer == p.peer && g.kind == p.scope.kind && g.epoch == epoch
  }

  // ---- before and after the opener ----

  ghost predicate AllPlain(store: Store, held: map<RequestId, HeldSign>, ids: seq<RequestId>) {
    forall id | id in ids :: id in held && Plain(store, held[id])
  }

  /** Before the opener there is no grant, and the queue holds no more requests it will
      answer than were released. */
  lemma {:induction false} Before(s: Agent, held: map<RequestId, HeldSign>, ids: seq<RequestId>, p: HeldSign, g: Grant)
    requires Ready(s) && SameUser(held, s.approvals.uid) && s.approvals.queue == [] && s.approvals.grants == []
    requires AllPlain(s.store, held, ids) && GrantOf(g, p, s.store.tracker.epoch)
    ensures var s' := ReleaseEach(s, held, ids);
            && Along(s', s) && Ready(s') && s'.approvals.grants == []
            && Matching(s'.approvals.queue, g) <= Served(p, InOrder(held, ids))
  {
    hide Ready, ReleaseOne, Reprompts, Plain, Matching, Serves, Expire;
    if ids != [] {
      var front, id := ids[..|ids| - 1], ids[|ids| - 1];
      Before(s, held, front, p, g);
      var s1 := ReleaseEach(s, held, front);
      BeforeOne(s1, id, held[id], p, g);
      assert InOrder(held, ids)[..|ids| - 1] == InOrder(held, front);
    }
  }

  lemma BeforeOne(s: Agent, id: RequestId, h: HeldSign, p: HeldSign, g: Grant)
    requires Ready(s) && h.peer.uid == s.approvals.uid && s.approvals.grants == []
    requires Plain(s.store, h) && GrantOf(g, p, s.store.tracker.epoch)
    ensures var s' := ReleaseOne(s, id, h);
            && Along(s', s) && Ready(s') && s'.approvals.grants == []
            && Matching(s'.approvals.queue, g) <= Matching(s.approvals.queue, g) + Count(Serves(p, h))
  {
    hide Ready, ReleaseOne, Reprompts, Matching, Authorize;
    PlainRelease(s, id, h);
    MatchingExpire(s.approvals, Now(s), g);
    MatchingPushed(Expire(s.approvals, Now(s)), Asking(s, h), g);
  }

  /** After it, if the grant is still held in the end, no request it answers is put to the
      panel or queued. */
  lemma {:induction false} After(s: Agent, held: map<RequestId, HeldSign>, ids: seq<RequestId>, p: HeldSign, g: Grant)
    requires Ready(s) && SameUser(held, s.approvals.uid) && Only(s.approvals.grants, g)
    requires AllPlain(s.store, held, ids) && GrantOf(g, p, s.store.tracker.epoch)
    ensures var s' := ReleaseEach(s, held, ids);
            && Along(s', s) && Ready(s') && Only(s'.approvals.grants, g)
            && (g in s'.approvals.grants ==>
                  && Matching(s'.approvals.queue, g) <= Matching(s.approvals.queue, g)
                  && Reprompted(s, held, ids) + Served(p, InOrder(held, ids)) <= |ids|)
  {
    hide Ready, ReleaseOne, Reprompts, Plain, Matching, Serves, Expire;
    if ids != [] {
      var front, id := ids[..|ids| - 1], ids[|ids| - 1];
      After(s, held, front, p, g);
      var s1 := ReleaseEach(s, held, front);
      AfterOne(s1, id, held[id], p, g);
      assert InOrder(held, ids)[..|ids| - 1] == InOrder(held, front);
    }
  }

  lemma AfterOne(s: Agent, id: RequestId, h: HeldSign, p: HeldSign, g: Grant)
    requires Ready(s) && h.peer.uid == s.approvals.uid && Only(s.approvals.grants, g)
    requires Plain(s.store, h) && GrantOf(g, p, s.store.tracker.epoch)
    ensures var s' := ReleaseOne(s, id, h);
            && Along(s', s) && Ready(s') && Only(s'.approvals.grants, g)
            && (g in s'.approvals.grants ==>
                  && g in s.approvals.grants
                  && Matching(s'.approvals.queue, g) <= Matching(s.approvals.queue, g)
                  && Count(Reprompts(s, h)) + Count(Serves(p, h)) <= 1)
  {
    hide Ready, ReleaseOne, Reprompts, Matching, Authorize;
    PlainRelease(s, id, h);
    MatchingExpire(s.approvals, Now(s), g);
    MatchingPushed(Expire(s.approvals, Now(s)), Asking(s, h), g);
    OnlyCovers(Expire(s.approvals, Now(s)).grants, g, Asking(s, h));
  }

  /** The opener itself: at most one grant, for itself, and no more in the queue. */
  lemma AtOpener(s: Agent, id: RequestId, p: HeldSign) returns (g: Grant)
    requires Ready(s) && p.peer.uid == s.approvals.uid && s.approvals.grants == [] && Opener(s.store, p)
    ensures GrantOf(g, p, s.store.tracker.epoch)
    ensures var s' := ReleaseOne(s, id, p);
            && Along(s', s) && Ready(s') && !Reprompts(s, p) && Only(s'.approvals.grants, g)
            && Matching(s'.approvals.queue, g) <= Matching(s.approvals.queue, g)
  {
    hide Ready, ReleaseOne, Reprompts, Matching, Authorize, Covered;
    ApprovedRelease(s, id, p);
    var s' := ReleaseOne(s, id, p);
    g := if s'.approvals.grants != [] then s'.approvals.grants[0]
         else Grant(0, p.blob, p.peer, p.scope.kind, s.store.tracker.epoch, None);
    var m := Expire(s.approvals, Now(s));
    MatchingExpire(s.approvals, Now(s), g);
    MatchingExpire(m.(nextId := m.nextId + 1), NextNow(s), g);
  }

  lemma {:induction false} ReleaseEachOn(s: Agent, held: map<RequestId, HeldSign>, xs: seq<RequestId>,
                                         ys: seq<RequestId>)
    requires forall id | id in xs + ys :: id in held
    ensures (forall id | id in xs :: id in held) && (forall id | id in ys :: id in held)
    ensures var s1 := ReleaseEach(s, held, xs);
            && ReleaseEach(s, held, xs + ys) == ReleaseEach(s1, held, ys)
            && Reprompted(s, held, xs + ys) == Reprompted(s, held, xs) + Reprompted(s1, held, ys)
  {
    hide ReleaseOne, Reprompts;
    assert forall id | id in xs || id in ys :: id in xs + ys;
    if ys == [] {
      assert xs + ys == xs;
    } else {
      var front := ys[..|ys| - 1];
      assert (xs + ys)[..|xs + ys| - 1] == xs + front;
      ReleaseEachOn(s, held, xs, front);
    }
  }

  /** The requests before, at and after position `i`, released in turn. */
  lemma AroundOpener(s: Agent, held: map<RequestId, HeldSign>, ids: seq<RequestId>, i: nat)
    requires i < |ids| && forall id | id in ids :: id in held
    ensures (forall id | id in ids[..i] :: id in held) && (forall id | id in ids[i + 1..] :: id in held)
    ensures var s1 := ReleaseEach(s, held, ids[..i]);
            var s2 := ReleaseOne(s1, ids[i], held[ids[i]]);
            && ReleaseEach(s, held, ids) == ReleaseEach(s2, held, ids[i + 1..])
            && Reprompted(s, held, ids) ==
               Reprompted(s, held, ids[..i]) + Count(Reprompts(s1, held[ids[i]])) + Reprompted(s2, held, ids[i + 1..])
  {
    hide ReleaseOne, Reprompts;
    assert ids[..i + 1] + ids[i + 1..] == ids;
    ReleaseEachOn(s, held, ids[..i + 1], ids[i + 1..]);
    assert ids[..i + 1][..i] == ids[..i];
  }

  /** With one opener and the rest unapproved, what is put to the panel anew and what the
      grant settles is bounded by what the window answers before and after it. */
  lemma OpenerBound(s: Agent, held: map<RequestId, HeldSign>, ids: seq<RequestId>, i: nat)
    requires Ready(s) && SameUser(held, s.approvals.uid) && s.approvals.queue == [] && s.approvals.grants == []
    requires i < |ids| && (forall id | id in ids :: id in held) && Opener(s.store, held[ids[i]])
    requires AllPlain(s.store, held, ids[..i]) && AllPlain(s.store, held, ids[i + 1..])
    ensures var t := ReleaseEach(s, held, ids);
            var p := held[ids[i]];
            Settling(t) > 0 ==>
              Reprompted(s, held, ids) + Settling(t) + Served(p, InOrder(held, ids[i + 1..]))
              <= |ids| - 1 + Served(p, InOrder(held, ids[..i]))
  {
    hide Ready, ReleaseOne, ReleaseEach, Reprompts, Reprompted, Plain, Matching, Served, Settling, Authorize;
    var p := held[ids[i]];
    var epoch := s.store.tracker.epoch;
    AroundOpener(s, held, ids, i);
    Before(s, held, ids[..i], p, Grant(0, p.blob, p.peer, p.scope.kind, epoch, None));
    var s1 := ReleaseEach(s, held, ids[..i]);
    var g := AtOpener(s1, ids[i], p);
    Before(s, held, ids[..i], p, g);
    var s2 := ReleaseOne(s1, ids[i], p);
    After(s2, held, ids[i + 1..], p, g);
    SettlingMatches(ReleaseEach(s2, held, ids[i + 1..]), g);
  }

  lemma SettlingMatches(s: Agent, g: Grant)
    requires Only(s.approvals.grants, g)
    ensures Settling(s) <= Matching(s.approvals.queue, g)
    ensures Settling(s) > 0 ==> g in s.approvals.grants
  {
    hide Matching;
    var m := Expire(s.approvals, Now(s));
    CoveredAreMatching(m.queue, m.grants, g);
    MatchingExpire(s.approvals, Now(s), g);
    if Settling(s) > 0 {
      var r := CoveredRequests(m.queue, m.grants)[0];
      assert r in CoveredRequests(m.queue, m.grants);
      var k :| 0 <= k < |m.grants| && GrantCovers(m.grants[k], r.epoch, r.blob, r.peer, r.scope);
      assert m.grants[k] in m.grants;
    }
  }

  // ---- more than two messages each ----

  /** What a release starts from: the keys just published, nothing queued and no grant. */
  ghost predicate Releasing(s: Agent) {
    && Ready(s) && SameUser(s.held, s.approvals.uid)
    && s.approvals.queue == [] && s.approvals.grants == [] && |s.held| <= MAX_PENDING
  }

  ghost function HeldInOrder(s: Agent): seq<HeldSign> {
    InOrder(s.held, Ascending(s.held.Keys))
  }

  ghost predicate TakesMoreThanTwoEach(s: Agent) {
    Sent(ReleaseHeld(s).log) > Sent(s.log) + 2 * |s.held|
  }

  lemma FindOpener(store: Store, hs: seq<HeldSign>, prompts: nat, settled: nat) returns (i: nat)
    requires |hs| <= MAX_PENDING && settled <= prompts <= Plains(store, hs)
    requires prompts + settled > |hs| && HasOpener(store, hs)
    ensures i < |hs| && Opener(store, hs[i]) && forall j | 0 <= j < |hs| && j != i :: Plain(store, hs[j])
  {
    hide Plain, Opener, Plains;
    i :| 0 <= i < |hs| && Opener(store, hs[i]);
    assert !Plain(store, hs[i]) by { OpenerIsNotPlain(store, hs[i]); }
    OneMissing(store, hs, i);
    OthersPlain(store, hs, i);
  }

  lemma OpenerIsNotPlain(store: Store, h: HeldSign)
    requires Opener(store, h)
    ensures !Plain(store, h)
  {
  }

  lemma SplitOrder(held: map<RequestId, HeldSign>, ids: seq<RequestId>, i: nat)
    requires i < |ids| && forall id | id in ids :: id in held
    ensures (forall id | id in ids[..i] :: id in held) && (forall id | id in ids[i + 1..] :: id in held)
    ensures InOrder(held, ids)[..i] == InOrder(held, ids[..i])
    ensures InOrder(held, ids)[i + 1..] == InOrder(held, ids[i + 1..])
  {
  }

  /** The exact number of messages, and what bounds its parts. */
  lemma Counts(s: Agent)
    requires Releasing(s)
    ensures Sent(ReleaseHeld(s).log) == Sent(s.log) + |s.held| + Asked(s) + Settling(Freed(s))
    ensures Settling(Freed(s)) <= Asked(s) <= Plains(s.store, HeldInOrder(s))
    ensures Settling(Freed(s)) > 0 ==> HasOpener(s.store, HeldInOrder(s))
  {
    hide Ready, ReleaseHeld, ReleaseEach, Reprompted, Settling, Sent, Refusals, HasOpener, Plains;
    ReadyAnyHeld(s);
    ReleaseHeldSends(s);
    SettleGrantedSends(Freed(s));
    Tally(s.(held := map[]), s.held, Ascending(s.held.Keys));
    NoGrantSettlesNone(Freed(s));
  }

  lemma BoundAround(s: Agent, i: nat)
    requires Releasing(s) && i < |s.held| && |HeldInOrder(s)| == |s.held| && Opener(s.store, HeldInOrder(s)[i])
    requires forall j | 0 <= j < |s.held| && j != i :: Plain(s.store, HeldInOrder(s)[j])
    ensures var hs := HeldInOrder(s);
            Settling(Freed(s)) > 0 ==>
              Asked(s) + Settling(Freed(s)) + Served(hs[i], hs[i + 1..]) <= |s.held| - 1 + Served(hs[i], hs[..i])
  {
    hide Ready, ReleaseEach, Reprompted, Plain, Opener, Settling, Served;
    var ids := Ascending(s.held.Keys);
    ReadyAnyHeld(s);
    SplitOrder(s.held, ids, i);
    PlainAround(s.store, s.held, ids, i);
    OpenerBound(s.(held := map[]), s.held, ids, i);
  }

  lemma OrderLength(s: Agent)
    ensures |HeldInOrder(s)| == |s.held|
  {
    assert |s.held.Keys| == |s.held|;
  }

  /** On every clock: a release takes more than two messages for each held request only if
      one of them was approved ahead for a window, no other was, and that window answers at
      least two of those raised before it and none of those raised after. */
  lemma SpillIsNeeded(s: Agent)
    requires Releasing(s) && TakesMoreThanTwoEach(s)
    ensures Spills(s.store, HeldInOrder(s))
  {
    hide Releasing, ReleaseHeld, HeldInOrder, Asked, Freed, Plain, Opener, Settling, Served, Sent, Plains, HasOpener,
         SpillsAt;
    var hs := HeldInOrder(s);
    OrderLength(s);
    Counts(s);
    AtMostFour(s);
    var i := FindOpener(s.store, hs, Asked(s), Settling(Freed(s)));
    BoundAround(s, i);
    SpillFrom(s.store, hs, i, Asked(s), Settling(Freed(s)));
  }

  lemma SpillFrom(store: Store, hs: seq<HeldSign>, i: nat, prompts: nat, settled: nat)
    requires i < |hs| <= MAX_PENDING && Opener(store, hs[i])
    requires forall j | 0 <= j < |hs| && j != i :: Plain(store, hs[j])
    requires prompts + settled > |hs|
    requires prompts + settled + Served(hs[i], hs[i + 1..]) <= |hs| - 1 + Served(hs[i], hs[..i])
    ensures SpillsAt(store, hs, i)
  {
    hide Plain, Opener;
  }

  lemma AtMostFour(s: Agent)
    requires Releasing(s)
    ensures |s.held| <= MAX_PENDING
  {
  }

  lemma ReadyAnyHeld(s: Agent)
    requires Ready(s)
    ensures Ready(s.(held := map[]))
  {
  }

  lemma NoGrantSettlesNone(s: Agent)
    ensures Settling(s) > 0 ==> s.approvals.grants != []
  {
    if s.approvals.grants == [] {
      SettlingMatches(s, Grant(0, [], Peer(0, 0, 0, ""), Other, 0, None));
    }
  }

  lemma PlainAround(store: Store, held: map<RequestId, HeldSign>, ids: seq<RequestId>, i: nat)
    requires i < |ids| && forall id | id in ids :: id in held
    requires forall j | 0 <= j < |ids| && j != i :: Plain(store, InOrder(held, ids)[j])
    ensures AllPlain(store, held, ids[..i]) && AllPlain(store, held, ids[i + 1..])
  {
    hide Plain;
    forall id | id in ids[..i] ensures id in held && Plain(store, held[id]) {
      var j :| 0 <= j < i && ids[j] == id;
      assert Plain(store, InOrder(held, ids)[j]);
    }
    forall id | id in ids[i + 1..] ensures id in held && Plain(store, held[id]) {
      var j :| i < j < |ids| && ids[j] == id;
      assert Plain(store, InOrder(held, ids)[j]);
    }
  }

  // ---- and exactly when, on every clock ----

  /** What the clock says at its `k`th reading. */
  ghost function At(clock: nat -> nat, k: nat): nat {
    Min(clock(k), U64_MAX)
  }

  /** The deadline lies beyond these readings. */
  ghost predicate Outlives(clock: nat -> nat, deadline: nat, lo: nat, hi: nat) {
    forall k | lo <= k < hi :: At(clock, k) < deadline
  }

  ghost predicate GrantLasts(clock: nat -> nat, g: Grant, lo: nat, hi: nat) {
    g.expires.None? || Outlives(clock, g.expires.value, lo, hi)
  }

  lemma OutlivesOn(clock: nat -> nat, deadline: nat, lo: nat, mid: nat, hi: nat)
    requires lo <= mid <= hi
    ensures Outlives(clock, deadline, lo, hi) <==>
            Outlives(clock, deadline, lo, mid) && Outlives(clock, deadline, mid, hi)
  {
  }

  lemma OutlivesNext(clock: nat -> nat, deadline: nat, lo: nat, hi: nat)
    requires lo < hi
    ensures Outlives(clock, deadline, lo, hi) <==> At(clock, lo) < deadline && Outlives(clock, deadline, lo + 1, hi)
  {
  }

  /** The queued requests the grant answers that are still there after these readings. */
  ghost function Lasts(queue: seq<Request>, g: Grant, clock: nat -> nat, lo: nat, hi: nat): (n: nat) {
    if queue == [] then 0
    else
      var r := queue[|queue| - 1];
      Lasts(queue[..|queue| - 1], g, clock, lo, hi)
      + Count(GrantCovers(g, r.epoch, r.blob, r.peer, r.scope) && Outlives(clock, r.deadline, lo, hi))
  }

  lemma {:induction false} ExpireLasts(queue: seq<Request>, g: Grant, clock: nat -> nat, lo: nat, hi: nat)
    requires lo < hi
    ensures Lasts(LiveRequests(queue, At(clock, lo)), g, clock, lo + 1, hi) == Lasts(queue, g, clock, lo, hi)
  {
    hide GrantCovers, Outlives, At;
    if queue != [] {
      var front, r := queue[..|queue| - 1], queue[|queue| - 1];
      var live := LiveRequests(front, At(clock, lo));
      ExpireLasts(front, g, clock, lo, hi);
      OutlivesNext(clock, r.deadline, lo, hi);
      assert (live + [r])[..|live|] == live;
    }
  }

  lemma {:induction false} LastsNow(queue: seq<Request>, g: Grant, clock: nat -> nat, lo: nat)
    ensures Lasts(queue, g, clock, lo, lo) == Matching(queue, g)
  {
    if queue != [] { LastsNow(queue[..|queue| - 1], g, clock, lo); }
  }

  lemma PushLasts(m: Manager, r: Request, g: Grant, clock: nat -> nat, lo: nat, hi: nat)
    ensures Lasts(Pushed(m, r).queue, g, clock, lo, hi) == Lasts(m.queue, g, clock, lo, hi)
            + Count(GrantCovers(g, r.epoch, r.blob, r.peer, r.scope) && Outlives(clock, r.deadline, lo, hi))
  {
    assert (m.queue + [r])[..|m.queue|] == m.queue;
  }

  /** Of the requests released one reading each from `from` on, those the window answers and
      whose own deadline holds until the end. */
  ghost function Enduring(p: HeldSign, hs: seq<HeldSign>, clock: nat -> nat, from: nat, hi: nat): (n: nat)
    ensures n <= Served(p, hs)
  {
    if hs == [] then 0
    else
      var last := from + |hs| - 1;
      Enduring(p, hs[..|hs| - 1], clock, from, hi)
      + Count(Serves(p, hs[|hs| - 1])
              && Outlives(clock, SatAdd(At(clock, last), REQUEST_LIFETIME_MS), last + 1, hi))
  }

  /** One reading later: the manager's queue and its one possible grant. */
  lemma ExpireOne(m: Manager, g: Grant, clock: nat -> nat, lo: nat, hi: nat)
    requires lo < hi && (m.grants == [] || m.grants == [g])
    ensures var m' := Expire(m, At(clock, lo));
            && |m'.queue| <= |m.queue|
            && m'.grants == (if GrantLasts(clock, g, lo, lo + 1) then m.grants else [])
            && Lasts(m'.queue, g, clock, lo + 1, hi) == Lasts(m.queue, g, clock, lo, hi)
  {
    ExpireLasts(m.queue, g, clock, lo, hi);
    assert [g][..0] == [];
    assert LiveGrants([], At(clock, lo)) == [];
    OutlivesOne(clock, g, lo);
    assert LiveGrants([g], At(clock, lo)) == if Unexpired(g, At(clock, lo)) then [g] else [];
  }

  lemma OutlivesOne(clock: nat -> nat, g: Grant, lo: nat)
    ensures GrantLasts(clock, g, lo, lo + 1) == Unexpired(g, At(clock, lo))
  {
  }

  /** `n` requests, all of them put to the panel, `more` of which last. */
  ghost predicate Prompting(s': Agent, s: Agent, g: Grant, n: nat, more: nat, hi: nat) {
    && Along(s', s) && Ready(s') && s'.readings == s.readings + n
    && s'.approvals.nextId == s.approvals.nextId + n && s'.approvals.nextGrantId == s.approvals.nextGrantId
    && |s'.approvals.queue| <= |s.approvals.queue| + n
    && s'.approvals.grants == (if GrantLasts(s.clock, g, s.readings, s'.readings) then s.approvals.grants else [])
    && Lasts(s'.approvals.queue, g, s.clock, s'.readings, hi) ==
       Lasts(s.approvals.queue, g, s.clock, s.readings, hi) + more
  }

  /** Room and ids for `n` more requests, and no grant but this one. */
  ghost predicate Roomy(s: Agent, g: Grant, n: nat) {
    && Ready(s) && |s.approvals.queue| + n <= MAX_PENDING && s.approvals.nextId + n <= U64_MAX
    && (s.approvals.grants == [] || s.approvals.grants == [g])
  }

  lemma PromptOne(s: Agent, id: RequestId, h: HeldSign, p: HeldSign, g: Grant, hi: nat)
    requires Roomy(s, g, 1) && h.peer.uid == s.approvals.uid && Plain(s.store, h) && s.readings < hi
    requires GrantOf(g, p, s.store.tracker.epoch) && (s.approvals.grants == [] || !Serves(p, h))
    ensures var s' := ReleaseOne(s, id, h);
            var lasts := Outlives(s.clock, SatAdd(Now(s), REQUEST_LIFETIME_MS), s.readings + 1, hi);
            Prompting(s', s, g, 1, Count(Serves(p, h) && lasts), hi) && Reprompts(s, h)
  {
    hide Ready, ReleaseOne, Reprompts, Authorize, Expire, Lasts, Outlives, GrantLasts;
    PlainRelease(s, id, h);
    ExpireOne(s.approvals, g, s.clock, s.readings, hi);
    ExpireKeepsIds(s.approvals, Now(s));
    var m := Expire(s.approvals, Now(s));
    PushLasts(m, Asking(s, h), g, s.clock, s.readings + 1, hi);
    OnlyCovers(m.grants, g, Asking(s, h));
  }

  lemma GrantLastsOn(clock: nat -> nat, g: Grant, lo: nat, mid: nat, hi: nat)
    requires lo <= mid <= hi
    ensures GrantLasts(clock, g, lo, hi) <==> GrantLasts(clock, g, lo, mid) && GrantLasts(clock, g, mid, hi)
    ensures GrantLasts(clock, g, lo, lo)
  {
    if g.expires.Some? { OutlivesOn(clock, g.expires.value, lo, mid, hi); }
  }

  lemma {:induction false} PromptEach(s: Agent, held: map<RequestId, HeldSign>, ids: seq<RequestId>,
                                      p: HeldSign, g: Grant, hi: nat)
    requires Roomy(s, g, |ids|) && SameUser(held, s.approvals.uid) && AllPlain(s.store, held, ids)
    requires GrantOf(g, p, s.store.tracker.epoch) && s.readings + |ids| <= hi
    requires s.approvals.grants == [] || Served(p, InOrder(held, ids)) == 0
    ensures var s' := ReleaseEach(s, held, ids);
            && Prompting(s', s, g, |ids|, Enduring(p, InOrder(held, ids), s.clock, s.readings, hi), hi)
            && Reprompted(s, held, ids) == |ids|
  {
    hide Ready, ReleaseOne, Reprompts, Plain, Lasts, Serves, Outlives, GrantOf, GrantLasts, Prompting;
    if ids == [] {
      PromptNone(s, g, hi);
    } else {
      var front, id := ids[..|ids| - 1], ids[|ids| - 1];
      assert InOrder(held, ids)[..|ids| - 1] == InOrder(held, front);
      PromptEach(s, held, front, p, g, hi);
      var s1 := ReleaseEach(s, held, front);
      var more := Enduring(p, InOrder(held, front), s.clock, s.readings, hi);
      PromptLeaves(s1, s, g, |front|, more, hi);
      PromptOne(s1, id, held[id], p, g, hi);
      var lasts := Outlives(s1.clock, SatAdd(Now(s1), REQUEST_LIFETIME_MS), s1.readings + 1, hi);
      PromptsAdd(s, s1, ReleaseOne(s1, id, held[id]), g, |front|, more, Count(Serves(p, held[id]) && lasts), hi);
    }
  }

  lemma PromptNone(s: Agent, g: Grant, hi: nat)
    requires Ready(s)
    ensures Prompting(s, s, g, 0, 0, hi)
  {
    GrantLastsOn(s.clock, g, s.readings, s.readings, s.readings);
  }

  /** What the next request finds. */
  lemma PromptLeaves(s': Agent, s: Agent, g: Grant, n: nat, more: nat, hi: nat)
    requires Prompting(s', s, g, n, more, hi) && Roomy(s, g, n + 1)
    ensures Roomy(s', g, 1) && Along(s', s) && s'.readings == s.readings + n
    ensures s.approvals.grants == [] ==> s'.approvals.grants == []
  {
    hide Ready, Lasts, GrantLasts;
  }

  lemma PromptsAdd(s: Agent, s1: Agent, s2: Agent, g: Grant, n: nat, more: nat, last: nat, hi: nat)
    requires Prompting(s1, s, g, n, more, hi) && Prompting(s2, s1, g, 1, last, hi)
    ensures Prompting(s2, s, g, n + 1, more + last, hi)
  {
    hide Ready, Lasts, GrantLasts;
    GrantLastsOn(s.clock, g, s.readings, s1.readings, s2.readings);
  }

  /** The grant an opener that is submitted at reading `at` opens, if it does. */
  ghost function GrantFor(s: Agent, p: HeldSign, at: nat): Grant
    requires p.approved.Some?
  {
    Grant(s.approvals.nextGrantId, p.blob, p.peer, p.scope.kind, s.store.tracker.epoch,
          Expiry(p.approved.value, At(s.clock, at + 1)))
  }

  /** Submitted and approved within the request's own lifetime, with a grant id left. */
  ghost predicate Opens(s: Agent, at: nat) {
    && SatAdd(At(s.clock, at), REQUEST_LIFETIME_MS) > At(s.clock, at + 1)
    && s.approvals.nextGrantId < U64_MAX
  }

  lemma OpenOne(s: Agent, id: RequestId, p: HeldSign, hi: nat)
    requires p.approved.Some?
    requires Roomy(s, GrantFor(s, p, s.readings), 1) && p.peer.uid == s.approvals.uid && Opener(s.store, p)
    requires s.approvals.grants == [] && s.readings + 2 <= hi
    ensures var s' := ReleaseOne(s, id, p);
            var g := GrantFor(s, p, s.readings);
            && Along(s', s) && Ready(s') && s'.readings == s.readings + 2 && !Reprompts(s, p)
            && s'.approvals.grants == (if Opens(s, s.readings) then [g] else [])
            && s'.approvals.nextId == s.approvals.nextId + 1 && |s'.approvals.queue| <= |s.approvals.queue|
            && Lasts(s'.approvals.queue, g, s.clock, s'.readings, hi) ==
               Lasts(s.approvals.queue, g, s.clock, s.readings, hi)
  {
    hide Ready, ReleaseOne, Reprompts, Authorize, Expire, Lasts, GrantLasts;
    var g := GrantFor(s, p, s.readings);
    ApprovedRelease(s, id, p);
    var m := Expire(s.approvals, Now(s));
    ExpireKeepsIds(s.approvals, Now(s));
    ExpireOne(s.approvals, g, s.clock, s.readings, hi);
    ExpireKeepsIds(m.(nextId := m.nextId + 1), NextNow(s));
    ExpireOne(m.(nextId := m.nextId + 1), g, s.clock, s.readings + 1, hi);
    NoGrantNoCover(m.grants, Asking(s, p));
  }

  lemma NoGrantNoCover(grants: seq<Grant>, r: Request)
    requires grants == []
    ensures !Covered(grants, r.epoch, r.blob, r.peer, r.scope)
  {
  }

  lemma SettlingExact(s: Agent, g: Grant)
    requires s.approvals.grants == [] || s.approvals.grants == [g]
    ensures Settling(s) == if g in s.approvals.grants && GrantLasts(s.clock, g, s.readings, s.readings + 1)
                           then Lasts(s.approvals.queue, g, s.clock, s.readings, s.readings + 1) else 0
  {
    hide Matching, Lasts, GrantLasts, Expire;
    ExpireOne(s.approvals, g, s.clock, s.readings, s.readings + 1);
    var m := Expire(s.approvals, Now(s));
    LastsNow(m.queue, g, s.clock, s.readings + 1);
    CoveredAreMatching(m.queue, m.grants, g);
    NoneCoveredBy(m.queue);
  }

  lemma {:induction false} NoneCoveredBy(queue: seq<Request>)
    ensures CoveredRequests(queue, []) == []
  {
    if queue != [] {
      NoneCoveredBy(queue[..|queue| - 1]);
      assert !RequestCovered([], queue[|queue| - 1]);
    }
  }

  /** How many requests the grant of the opener at `i` settles, from the clock alone. */
  ghost function Settled(s: Agent, hs: seq<HeldSign>, i: nat): nat
    requires i < |hs| && hs[i].approved.Some?
  {
    var at, hi := s.readings + i, s.readings + |hs| + 2;
    if Opens(s, at) && GrantLasts(s.clock, GrantFor(s, hs[i], at), at + 2, hi)
    then Enduring(hs[i], hs[..i], s.clock, s.readings, hi) else 0
  }

  lemma ReleaseAround(s: Agent, held: map<RequestId, HeldSign>, ids: seq<RequestId>, i: nat)
    requires Ready(s) && SameUser(held, s.approvals.uid) && s.approvals.queue == [] && s.approvals.grants == []
    requires i < |ids| <= MAX_PENDING && (forall id | id in ids :: id in held) && Opener(s.store, held[ids[i]])
    requires AllPlain(s.store, held, ids[..i]) && AllPlain(s.store, held, ids[i + 1..])
    requires Served(held[ids[i]], InOrder(held, ids[i + 1..])) == 0
    requires s.approvals.nextId + |ids| <= U64_MAX
    ensures Reprompted(s, held, ids) == |ids| - 1
    ensures Settling(ReleaseEach(s, held, ids)) == Settled(s, InOrder(held, ids), i)
  {
    hide Ready, ReleaseOne, ReleaseEach, Reprompts, Reprompted, Plain, Lasts, Served, Enduring, Settling, Expire,
         GrantLasts, Outlives, Authorize;
    var p := held[ids[i]];
    var at, hi := s.readings + i, s.readings + |ids| + 2;
    var g := GrantFor(s, p, at);
    var before, after := ids[..i], ids[i + 1..];
    AroundOpener(s, held, ids, i);
    PromptEach(s, held, before, p, g, hi);
    var s1 := ReleaseEach(s, held, before);
    OpenOne(s1, ids[i], p, hi);
    var s2 := ReleaseOne(s1, ids[i], p);
    PromptEach(s2, held, after, p, g, hi);
    var t := ReleaseEach(s2, held, after);
    SettlingExact(t, g);
    GrantLastsOn(s.clock, g, at + 2, t.readings, hi);
    SplitOrder(held, ids, i);
    NoneLast(p, InOrder(held, after), s.clock, s2.readings, hi);
    LastsNone(g, s.clock, s.readings, hi);
  }

  lemma NoneLast(p: HeldSign, hs: seq<HeldSign>, clock: nat -> nat, from: nat, hi: nat)
    requires Served(p, hs) == 0
    ensures Enduring(p, hs, clock, from, hi) == 0
  {
  }

  lemma LastsNone(g: Grant, clock: nat -> nat, lo: nat, hi: nat)
    ensures Lasts([], g, clock, lo, hi) == 0
  {
  }

  /** Exactly how many: one message for each, a prompt for all but the opener, and one for
      each that its grant settles. */
  lemma SpillTakes(s: Agent, i: nat)
    requires Releasing(s) && SpillsAt(s.store, HeldInOrder(s), i) && s.approvals.nextId + |s.held| <= U64_MAX
    ensures Sent(ReleaseHeld(s).log) == Sent(s.log) + 2 * |s.held| - 1 + Settled(s, HeldInOrder(s), i)
  {
    hide Ready, ReleaseHeld, ReleaseEach, Reprompted, Plain, Settling, Served, Sent, Plains, HasOpener, Settled,
         Authorize;
    var ids := Ascending(s.held.Keys);
    OrderLength(s);
    ReadyAnyHeld(s);
    Counts(s);
    SplitOrder(s.held, ids, i);
    PlainAround(s.store, s.held, ids, i);
    ReleaseAround(s.(held := map[]), s.held, ids, i);
    SettledAlike(s, HeldInOrder(s), i);
  }

  lemma SettledAlike(s: Agent, hs: seq<HeldSign>, i: nat)
    requires i < |hs| && hs[i].approved.Some?
    ensures Settled(s.(held := map[]), hs, i) == Settled(s, hs, i)
  {
  }

  // ---- the ids a release uses ----

  lemma ReleaseIds(s: Agent, id: RequestId, h: HeldSign)
    requires Ready(s) && h.peer.uid == s.approvals.uid
    ensures var s' := ReleaseOne(s, id, h);
            var m, m' := s.approvals, s'.approvals;
            && Along(s', s) && Ready(s')
            && m'.nextId >= m.nextId + Count(Reprompts(s, h)) + Count(m.grants == [] && m'.grants != [])
            && (m'.nextId == m.nextId || m'.nextId <= U64_MAX)
  {
    hide Ready, ReleaseOne, Authorize, Covered, Along, Reprompts;
    ExpireKeepsIds(s.approvals, Now(s));
    if Authorize(s.store, h.blob).None? {
      UnauthorisedRelease(s, id, h);
    } else if h.approved.None? {
      PlainRelease(s, id, h);
    } else {
      ApprovedRelease(s, id, h);
    }
  }

  lemma {:induction false} ReleaseEachIds(s: Agent, held: map<RequestId, HeldSign>, ids: seq<RequestId>)
    requires Ready(s) && SameUser(held, s.approvals.uid) && s.approvals.grants == []
    requires forall id | id in ids :: id in held
    ensures var s' := ReleaseEach(s, held, ids);
            && Along(s', s) && Ready(s')
            && s'.approvals.nextId >=
               s.approvals.nextId + Reprompted(s, held, ids) + Count(s'.approvals.grants != [])
            && (s'.approvals.nextId == s.approvals.nextId || s'.approvals.nextId <= U64_MAX)
  {
    hide Ready, ReleaseOne, Reprompts;
    if ids != [] {
      var front, id := ids[..|ids| - 1], ids[|ids| - 1];
      ReleaseEachIds(s, held, front);
      ReleaseIds(ReleaseEach(s, held, front), id, held[id]);
    }
  }

  lemma IdsSuffice(s: Agent, i: nat)
    requires Releasing(s) && TakesMoreThanTwoEach(s) && SpillsAt(s.store, HeldInOrder(s), i)
    ensures s.approvals.nextId + |s.held| <= U64_MAX
  {
    hide Ready, ReleaseHeld, ReleaseEach, Reprompted, Settling, Served, Sent, Plains, HasOpener, Plain, Opener;
    OrderLength(s);
    ReadyAnyHeld(s);
    Counts(s);
    NoGrantSettlesNone(Freed(s));
    assert !Plain(s.store, HeldInOrder(s)[i]) by { OpenerIsNotPlain(s.store, HeldInOrder(s)[i]); }
    OneMissing(s.store, HeldInOrder(s), i);
    ReleaseEachIds(s.(held := map[]), s.held, Ascending(s.held.Keys));
  }

  /** The whole condition: the held requests spill, the ids suffice, and, by the clock, the
      window opens and lasts and at least two of the requests it answers do too. */
  ghost predicate SpillsInTime(s: Agent) {
    && s.approvals.nextId + |s.held| <= U64_MAX
    && var hs := HeldInOrder(s);
       exists i :: 0 <= i < |hs| && SpillsAt(s.store, hs, i) && Settled(s, hs, i) >= 2
  }

  /** On every clock: a release takes more than two messages for each held request if and
      only if they spill in time. */
  lemma SpillsExactly(s: Agent)
    requires Releasing(s)
    ensures TakesMoreThanTwoEach(s) <==> SpillsInTime(s)
  {
    hide Releasing, ReleaseHeld, HeldInOrder, Sent, Settled;
    if TakesMoreThanTwoEach(s) {
      SpillIsNeeded(s);
      var i :| 0 <= i < |HeldInOrder(s)| && SpillsAt(s.store, HeldInOrder(s), i);
      IdsSuffice(s, i);
      SpillTakes(s, i);
    }
    if SpillsInTime(s) {
      var i :| 0 <= i < |HeldInOrder(s)| && SpillsAt(s.store, HeldInOrder(s), i) && Settled(s, HeldInOrder(s), i) >= 2;
      SpillTakes(s, i);
    }
  }
}
