/** What an approval is worth, and what becomes of a sign request. */
module AgentAnswers {
  import opened Base
  import opened KeyStoreModel
  import opened ApprovalModel
  import opened ObserverModel
  import opened AgentModel
  import opened AgentInvariant
  import opened AgentArms
  import opened AgentDrain
  import opened AgentSafety

  // ---- approving ----

  /** A reply, once given, is the reply. */
  lemma {:induction false} AnswerStays(log: Log, uid: nat, past: Log, c: Chan)
    requires Accepted(log, uid) && Extends(log, past) && c in Observe(past).book.answered
    ensures c in Observe(log).book.answered && Observe(log).book.answered[c] == Observe(past).book.answered[c]
  {
    if log != past {
      AnswerStays(log.past, uid, past, c);
      var o := Observe(log.past);
      assert c !in o.book.answered || !Open(o.book, c);
      assert log.last.Replied? ==> log.last.chan != c;
    }
  }

  lemma {:induction false} ExtendsOn(a: Log, b: Log, c: Log)
    requires Extends(a, b) && Extends(b, c)
    ensures Extends(a, c)
  {
    if a != b {
      ExtendsOn(a.past, b, c);
    }
  }

  lemma {:induction false} SettleExtends(s: Agent, released: seq<Request>)
    ensures Extends(SettleEach(s, released).log, s.log)
  {
    if released != [] {
      SettleExtends(s, released[..|released| - 1]);
    }
  }

  lemma SettleGrantedExtends(s: Agent)
    ensures Extends(SettleGranted(s).log, s.log)
  {
    var (approvals, released) := ReleaseGranted(s.approvals, Now(s));
    hide SettleEach, ReleaseGranted;
    var s1 := ReadClock(s).(approvals := approvals);
    SettleExtends(s1, released);
    assert Extends(s1.log, s.log);
    ExtendsOn(SettleGranted(s).log, s1.log, s.log);
  }

  /** The store's own answer to a request for `blob`: a signature by that blob's key, if
      it is loaded and has an algorithm for the flags. */
  function KeyAnswer(store: Store, blob: Blob, message: seq<byte>, flags: nat): Response {
    var key := FindKey(store, blob, 0);
    if key.Some? && (if key.value.kind == Ed25519 then flags == 0 else flags == 2 || flags == 4)
    then Signed(Signature(key.value, message, flags)) else Failure
  }

  /** What approving `id` with `d` at `now` entitles its request to. */
  function Entitled(m: Manager, store: Store, id: RequestId, d: GrantDuration, now: nat, message: seq<byte>,
                    flags: nat): Response
  {
    var q := LiveRequests(m.queue, now);
    var at := Position(q, id);
    if at < |q| && (OpensGrant(d, q[at].scope) ==> m.nextGrantId < U64_MAX)
    then KeyAnswer(store, q[at].blob, message, flags)
    else Failure
  }

  lemma AuthorizedIsKeyAnswer(store: Store, blob: Blob, message: seq<byte>, flags: nat)
    requires Allows(store.tracker, store.tracker.epoch)
    ensures AuthorizedSignature(store, Authorization(store.tracker.epoch, blob), message, flags) ==
            KeyAnswer(store, blob, message, flags)
  {
  }

  ghost function Approved(s: Agent, id: RequestId, d: GrantDuration): Agent
    requires id in s.pending
  {
    var sign := s.pending[id];
    var (s', a) := ApproveQueued(s.(pending := s.pending - {id}), id, sign.chan, d);
    Answer(s', sign.chan, a, sign.message, sign.flags)
  }

  lemma ApprovedAnswer(s: Agent, id: RequestId, d: GrantDuration)
    requires id in s.pending && Allows(s.store.tracker, s.store.tracker.epoch)
    requires forall r | r in s.approvals.queue :: r.epoch == s.store.tracker.epoch
    ensures var answered := Observe(Approved(s, id, d).log).book.answered;
            && s.pending[id].chan in answered
            && answered[s.pending[id].chan] ==
               Entitled(s.approvals, s.store, id, d, Now(s), s.pending[id].message, s.pending[id].flags)
  {
    var sign := s.pending[id];
    ApprovePendingShape(s, id, sign.chan, d);
    var s1 := Expired(s);
    var q := s1.approvals.queue;
    var at := Position(q, id);
    hide Consume, ApproveQueued, KeyAnswer, AuthorizedSignature, Position, LiveRequests, LiveGrants, Observe;
    var (s2, a) := ApproveQueued(s.(pending := s.pending - {id}), id, sign.chan, d);
    AnswerObserved(s2, sign.chan, a, sign.message, sign.flags);
    if at < |q| {
      ConsumeFrame(TakenOut(s1, at), sign.chan, q[at], d);
      assert q[at] in s.approvals.queue;
      AuthorizedIsKeyAnswer(s.store, q[at].blob, sign.message, sign.flags);
    }
  }

  lemma AnswerObserved(s: Agent, chan: Chan, a: Option<Authorization>, message: seq<byte>, flags: nat)
    ensures var answered := Observe(Answer(s, chan, a, message, flags).log).book.answered;
            && chan in answered
            && answered[chan] == if a.Some? then AuthorizedSignature(s.store, a.value, message, flags) else Failure
  {
  }

  /** Approving a pending request answers it at once, with a signature by the key it asked
      for exactly when it is still queued and unexpired, that key is loaded and can sign
      with the flags, and the grant it opens (if any) has an id left. */
  lemma ApprovalAnswers(s: Agent, id: RequestId, d: GrantDuration)
    requires Inv(s) && s.phase.Running? && s.handshake && id in s.pending
    ensures var s' := Step(s, FromPanel(ApproveRequest(id, d)));
            var c := s.pending[id].chan;
            && c in Observe(s'.log).book.answered
            && Observe(s'.log).book.answered[c] ==
               Entitled(s.approvals, s.store, id, d, Now(s), s.pending[id].message, s.pending[id].flags)
  {
    var e := FromPanel(ApproveRequest(id, d));
    var s1 := Note(s, Told(ApproveRequest(id, d)));
    PendingMeansLive(s, id);
    StepAccepted(s, e);
    ApproveStep(s, id, d);
    hide Inv, Step, Entitled, Approved, SettleGranted, Accepted;
    ApprovedAnswer(s1, id, d);
    var s2 := Approved(s1, id, d);
    SettleGrantedExtends(s2);
    AnswerStays(Step(s, e).log, s.approvals.uid, s2.log, s.pending[id].chan);
  }

  lemma StepAccepted(s: Agent, e: Event)
    requires Inv(s) && Polite(s, e)
    ensures Accepted(Step(s, e).log, s.approvals.uid)
  {
    hide Step;
    StepKeeps(s, e);
  }

  lemma ApproveStep(s: Agent, id: RequestId, d: GrantDuration)
    requires s.phase.Running? && id in s.pending && id !in s.held
    ensures var s1 := Approved(Note(s, Told(ApproveRequest(id, d))), id, d);
            Step(s, FromPanel(ApproveRequest(id, d))) == if d != Once then SettleGranted(s1) else s1
  {
    hide SettleGranted, ApproveQueued;
  }

  lemma PendingMeansLive(s: Agent, id: RequestId)
    requires Inv(s) && id in s.pending
    ensures id !in s.held && Allows(s.store.tracker, s.store.tracker.epoch)
    ensures forall r | r in s.approvals.queue :: r.epoch == s.store.tracker.epoch
  {
    forall r | r in s.approvals.queue ensures r.epoch == s.store.tracker.epoch {
      assert QueuedFor(r, s.pending, s.store.tracker.epoch, Observe(s.log).book);
    }
  }

  // ---- a sign request at an open gate ----

  /** The request waits under `id`, with its own data, unanswered. */
  predicate Waits(s: Agent, chan: Chan, id: RequestId, message: seq<byte>, flags: nat) {
    && chan !in Observe(s.log).book.answered
    && id in s.pending && s.pending[id] == PendingSign(chan, message, flags)
  }

  predicate AnsweredWith(s: Agent, chan: Chan, r: Response) {
    chan in Observe(s.log).book.answered && Observe(s.log).book.answered[chan] == r
  }

  /** What becomes of a sign request at an open gate, in the step that delivers it: another
      user or a key that is not loaded is refused; a live grant that covers it answers with
      the store's own answer; otherwise it waits for the panel, if there is room. */
  lemma SignOutcome(s: Agent, c: Client)
    requires Inv(s) && s.phase.Running? && s.gateOpen && c.request.SignData?
    ensures var s' := Step(s, FromClient(c));
            var (blob, message, flags) := (c.request.blob, c.request.message, c.request.flags);
            var live := Expire(s.approvals, Now(s));
            if Authorize(s.store, blob).None? || c.peer.uid != s.approvals.uid
            then AnsweredWith(s', s.nextChan, Failure)
            else if Covered(live.grants, s.store.tracker.epoch, blob, c.peer, Scope(c)) then
              AnsweredWith(s', s.nextChan, KeyAnswer(s.store, blob, message, flags))
            else if NoRoom(live) then AnsweredWith(s', s.nextChan, Failure)
            else Waits(s', s.nextChan, s.approvals.nextId, message, flags)
  {
    var s1 := Note(s.(nextChan := s.nextChan + 1), Delivered(s.nextChan, c));
    CoreStore(s, s.held, Waiting(s));
    NotAnsweredYet(s);
    if Authorize(s.store, c.request.blob).None? || c.peer.uid != s.approvals.uid {
      SignRefused(s, s1, c);
    } else {
      SignStep(s, s1, c);
      hide Inv, Step, Observe, KeyAnswer, Covered, Expire, Waits, AnsweredWith, SubmitSign, Authorize;
      SignSubmitted(s1, s.nextChan, c);
    }
  }

  lemma SignStep(s: Agent, s1: Agent, c: Client)
    requires s.phase.Running? && s.gateOpen && c.request.SignData? && Authorize(s.store, c.request.blob).Some?
    requires s1 == Note(s.(nextChan := s.nextChan + 1), Delivered(s.nextChan, c))
    ensures Step(s, FromClient(c)) ==
            SubmitSign(s1, s.nextChan, c.request.blob, c.request.message, c.request.flags, c.peer, Scope(c))
    ensures Observe(s1.log).book.answered == Observe(s.log).book.answered
  {
    hide SubmitSign, Authorize;
  }

  lemma SignSubmitted(s: Agent, chan: Chan, c: Client)
    requires c.request.SignData? && ValidStore(s.store) && Authorize(s.store, c.request.blob).Some?
    requires c.peer.uid == s.approvals.uid && chan !in Observe(s.log).book.answered
    ensures var (blob, message, flags) := (c.request.blob, c.request.message, c.request.flags);
            var s' := SubmitSign(s, chan, blob, message, flags, c.peer, Scope(c));
            var live := Expire(s.approvals, Now(s));
            if Covered(live.grants, s.store.tracker.epoch, blob, c.peer, Scope(c)) then
              AnsweredWith(s', chan, KeyAnswer(s.store, blob, message, flags))
            else if NoRoom(live) then AnsweredWith(s', chan, Failure)
            else Waits(s', chan, s.approvals.nextId, message, flags)
  {
    var (blob, message, flags) := (c.request.blob, c.request.message, c.request.flags);
    assert Expire(s.approvals, Now(s)).nextId == s.approvals.nextId;
    KeyIsListed(s.store, blob);
    SubmitShape(s, chan, blob, message, flags, c.peer, Scope(c));
    AuthorizedIsKeyAnswer(s.store, blob, message, flags);
    hide Observe, KeyAnswer, AuthorizedSignature, Covered, Expire, FindPublic, Waits, AnsweredWith, SubmitSign,
         Authorize;
    var s1 := Expired(s);
    ExpiredObserved(s);
    ReplyObserved(s1, chan, KeyAnswer(s.store, blob, message, flags));
    ReplyObserved(s1, chan, Failure);
    EnqueueObserved(s1, NewRequest(s1.approvals, s.store.tracker.epoch, blob, c.peer, Scope(c), Now(s)), chan,
                    message, flags,
                    FindPublic(s.store.public, blob).value);
  }

  lemma SignRefused(s: Agent, s1: Agent, c: Client)
    requires s.phase.Running? && s.gateOpen && c.request.SignData?
    requires s1 == Note(s.(nextChan := s.nextChan + 1), Delivered(s.nextChan, c))
    requires Authorize(s.store, c.request.blob).None? || c.peer.uid != s.approvals.uid
    ensures AnsweredWith(Step(s, FromClient(c)), s.nextChan, Failure)
  {
    hide Authorize;
  }

  lemma NotAnsweredYet(s: Agent)
    requires Inv(s)
    ensures s.nextChan !in Observe(s.log).book.answered
  {
    hide QueueOk, HomesOk, GrantsOk, PendingOk, HeldOk, ApprovedOk;
  }

  lemma ReplyObserved(s: Agent, chan: Chan, r: Response)
    ensures AnsweredWith(Reply(s, chan, r), chan, r)
  {
  }

  lemma ExpiredObserved(s: Agent)
    ensures Observe(Expired(s).log).book == Observe(s.log).book
  {
    hide Expire;
  }

  lemma EnqueueObserved(s: Agent, q: Request, chan: Chan, message: seq<byte>, flags: nat, key: PublicIdentity)
    requires chan !in Observe(s.log).book.answered
    ensures Waits(Enqueue(s, q, chan, message, flags, key), chan, q.id, message, flags)
  {
  }
}
