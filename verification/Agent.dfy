/** The single-owner event loop of the SSH agent, as functions on its state: one function
    per arm of the loop and per helper the arms share. */
module AgentModel {
  import opened Base
  import opened KeyStoreModel
  import opened ApprovalModel
  import opened ObserverModel
  import opened FifoModel

  const HELD_LIFETIME_MS: nat := REQUEST_LIFETIME_MS
  const LOAD_END_GRACE_MS: nat := 5_000
  const CONTROL_OUTPUT_CAPACITY: nat := MAX_KEYS + 1 + 2 * MAX_PENDING + 1 + 8

  datatype PendingSign = PendingSign(chan: Chan, message: seq<byte>, flags: nat)

  datatype HeldSign = HeldSign(chan: Chan, blob: Blob, message: seq<byte>, flags: nat, peer: Peer,
                               scope: SignScope, deadline: nat, approved: Option<GrantDuration>)

  datatype HeldListing = HeldListing(id: RequestId, deadline: nat, waiting: seq<Chan>)

  /** A FIFO read: it failed, or it gave a payload of some size that is or is not an
      envelope naming a load and its items. */
  datatype Payload = ReadFailed | Bytes(size: nat, envelope: Option<(seq<byte>, seq<Item>)>)

  datatype ActiveLoad = ActiveLoad(epoch: nat, nonce: seq<byte>, payload: Option<Payload>,
                                   ended: bool, deadline: Option<nat>)

  datatype Phase = Running | Stopped | Failed

  datatype Outcome = StillLoading | Published | LoadRefused

  datatype Agent = Agent(
    phase: Phase, handshake: bool, gateOpen: bool, unlockOnDemand: bool,
    store: Store, approvals: Manager,
    pending: map<RequestId, PendingSign>, held: map<RequestId, HeldSign>, listing: Option<HeldListing>,
    load: Option<ActiveLoad>, snapshot: seq<GrantId>,
    nextChan: Chan, clock: nat -> nat, readings: nat, log: Log)

  ghost function Init(uid: nat, clock: nat -> nat): Agent {
    Agent(Running, false, false, false, InitStore, NewManager(uid), map[], map[], None, None, [], 0, clock, 0, Empty)
  }

  // ---- the log ----

  function Note(s: Agent, e: Entry): Agent {
    s.(log := Then(s.log, e))
  }

  ghost function Emit(s: Agent, o: Output): Agent {
    Note(s, Emitted(o))
  }

  ghost function Reply(s: Agent, chan: Chan, r: Response): Agent {
    Note(s, Replied(chan, r))
  }

  /** `elapsed_ms`: every call is one more reading of an arbitrary clock. */
  ghost function Now(s: Agent): nat {
    Min(s.clock(s.readings), U64_MAX)
  }

  ghost function ReadClock(s: Agent): Agent {
    Note(s.(readings := s.readings + 1), Clock(Now(s)))
  }

  // ---- replies ----

  function Finalize(a: Authorization, store: Store): Option<Permit> {
    var permit := Authorize(store, a.blob);
    if permit.Some? && store.tracker.epoch == a.epoch then permit else None
  }

  function AuthorizedSignature(store: Store, a: Authorization, message: seq<byte>, flags: nat): Response {
    var permit := Finalize(a, store);
    if permit.None? then Failure
    else
      var signature := Sign(store, permit.value, message, flags);
      if signature.None? then Failure else Signed(signature.value)
  }

  function ListKeys(public: seq<PublicIdentity>): seq<(Blob, seq<byte>)> {
    if public == [] then [] else [(public[0].blob, public[0].name)] + ListKeys(public[1..])
  }

  function FindPublic(public: seq<PublicIdentity>, blob: Blob): (r: Option<PublicIdentity>)
    ensures r.Some? ==> r.value.blob == blob
    ensures r.None? ==> forall i | 0 <= i < |public| :: public[i].blob != blob
  {
    if public == [] then None
    else if public[0].blob == blob then Some(public[0])
    else FindPublic(public[1..], blob)
  }

  // ---- a request from a client ----

  ghost function HandleClient(s: Agent, c: Client): Agent {
    var chan := s.nextChan;
    var s := Note(s.(nextChan := chan + 1), Delivered(chan, c));
    match c.request
    case SessionBind => Reply(s, chan, Failure)
    case Identities => HandleListing(s, chan, c)
    case SignData(blob, message, flags) =>
      if s.gateOpen then HandleSign(s, chan, c) else HoldSign(s, chan, c)
  }

  ghost function HandleListing(s: Agent, chan: Chan, c: Client): Agent {
    if s.store.public == [] && s.unlockOnDemand && c.peer.uid == s.approvals.uid then
      if s.listing.Some? then
        s.(listing := Some(s.listing.value.(waiting := s.listing.value.waiting + [chan])))
      else
        var (approvals, id) := Reserve(s.approvals);
        if id.None? then Reply(s, chan, Listing(ListKeys(s.store.public)))
        else
          var s := Emit(s.(approvals := approvals), UnlockRequired(id.value, chan, None, c.peer, Scope(c), false));
          var deadline := SatAdd(Now(s), HELD_LIFETIME_MS);
          ReadClock(s).(listing := Some(HeldListing(id.value, deadline, [chan])))
    else Reply(s, chan, Listing(ListKeys(s.store.public)))
  }

  ghost function HoldSign(s: Agent, chan: Chan, c: Client): Agent
    requires c.request.SignData?
  {
    var key := FindPublic(s.store.public, c.request.blob);
    if key.None? || c.peer.uid != s.approvals.uid || CapacityRemaining(s.approvals, |s.held|) == 0 then
      Reply(s, chan, Failure)
    else
      var (approvals, id) := Reserve(s.approvals);
      if id.None? then Reply(s, chan, Failure)
      else
        var s := Emit(s.(approvals := approvals),
                      UnlockRequired(id.value, chan, key, c.peer, Scope(c), Grantable(Scope(c))));
        var request := HeldSign(chan, c.request.blob, c.request.message, c.request.flags, c.peer, Scope(c),
                                SatAdd(Now(s), HELD_LIFETIME_MS), None);
        ReadClock(s).(held := s.held[id.value := request])
  }

  ghost function HandleSign(s: Agent, chan: Chan, c: Client): Agent
    requires c.request.SignData?
  {
    if Authorize(s.store, c.request.blob).None? then Reply(s, chan, Failure)
    else SubmitSign(s, chan, c.request.blob, c.request.message, c.request.flags, c.peer, Scope(c))
  }

  /** Submit at the current epoch: a covering grant answers at once, otherwise the panel is
      asked, unless the queue is full or the ids have run out. */
  ghost function SubmitSign(s: Agent, chan: Chan, blob: Blob, message: seq<byte>, flags: nat,
                            peer: Peer, scope: SignScope): Agent
  {
    var now := Now(s);
    var s := ReadClock(s);
    var (approvals, submitted) := Submit(s.approvals, s.store.tracker.epoch, blob, peer, scope, now);
    var s := s.(approvals := approvals);
    match submitted
    case Granted(authorization) =>
      Reply(s, chan, AuthorizedSignature(s.store, authorization, message, flags))
    case Queued(id) =>
      var key := FindPublic(s.store.public, blob);
      if key.None? then Reply(s.(approvals := Disconnect(s.approvals, id)), chan, Failure)
      else
        var s := Emit(s, ApprovalRequired(id, chan, key.value, peer, scope, Grantable(scope)));
        s.(pending := s.pending[id := PendingSign(chan, message, flags)])
    case Rejected => Reply(s, chan, Failure)
  }

  // ---- approvals ----

  /** Approve a queued request; a grant it opens is logged with the request it came from. */
  ghost function ApproveQueued(s: Agent, id: RequestId, chan: Chan, duration: GrantDuration):
    (Agent, Option<Authorization>)
  {
    var now := Now(s);
    var s := ReadClock(s);
    var (approvals, authorization) := Approve(s.approvals, id, duration, now);
    var s' := s.(approvals := approvals);
    if approvals.nextGrantId > s.approvals.nextGrantId && approvals.grants != [] then
      (Note(s', Opened(approvals.grants[|approvals.grants| - 1], chan)), authorization)
    else (s', authorization)
  }

  ghost function Answer(s: Agent, chan: Chan, a: Option<Authorization>, message: seq<byte>, flags: nat): Agent {
    Reply(s, chan, if a.Some? then AuthorizedSignature(s.store, a.value, message, flags) else Failure)
  }

  ghost function OnApprove(s: Agent, id: RequestId, duration: GrantDuration): Agent {
    if id in s.held then s.(held := s.held[id := s.held[id].(approved := Some(duration))])
    else if id !in s.pending then s
    else
      var sign := s.pending[id];
      var (s, authorization) := ApproveQueued(s.(pending := s.pending - {id}), id, sign.chan, duration);
      var s := Answer(s, sign.chan, authorization, sign.message, sign.flags);
      if duration != Once then SettleGranted(s) else s
  }

  ghost function SettleOne(s: Agent, r: Request): Agent {
    var s :=
      if r.id in s.pending then
        var sign := s.pending[r.id];
        Reply(s.(pending := s.pending - {r.id}), sign.chan,
              AuthorizedSignature(s.store, Authorization(r.epoch, r.blob), sign.message, sign.flags))
      else s;
    Emit(s, RequestCancelled(r.id, "granted"))
  }

  ghost function SettleEach(s: Agent, released: seq<Request>): Agent {
    if released == [] then s
    else SettleOne(SettleEach(s, released[..|released| - 1]), released[|released| - 1])
  }

  ghost function SettleGranted(s: Agent): Agent {
    var (approvals, released) := ReleaseGranted(s.approvals, Now(s));
    SettleEach(ReadClock(s).(approvals := approvals), released)
  }

  // ---- held requests ----

  /** The approval came before the load: submit, and consume the approval at once. */
  ghost function SubmitApproved(s: Agent, h: HeldSign, duration: GrantDuration): Agent {
    var now := Now(s);
    var s := ReadClock(s);
    var (approvals, submitted) := Submit(s.approvals, s.store.tracker.epoch, h.blob, h.peer, h.scope, now);
    var s := s.(approvals := approvals);
    match submitted
    case Granted(a) => Answer(s, h.chan, Some(a), h.message, h.flags)
    case Queued(id) =>
      var (s, a) := ApproveQueued(s, id, h.chan, duration);
      Answer(s, h.chan, a, h.message, h.flags)
    case Rejected => Reply(s, h.chan, Failure)
  }

  ghost function ReleaseOne(s: Agent, id: RequestId, h: HeldSign): Agent {
    var s := Emit(s, RequestCancelled(id, "released"));
    if Authorize(s.store, h.blob).None? then Reply(s, h.chan, Failure)
    else if h.approved.None? then SubmitSign(s, h.chan, h.blob, h.message, h.flags, h.peer, h.scope)
    else SubmitApproved(s, h, h.approved.value)
  }

  ghost function ReleaseEach(s: Agent, held: map<RequestId, HeldSign>, ids: seq<RequestId>): Agent
    requires forall id | id in ids :: id in held
  {
    if ids == [] then s
    else
      var id := ids[|ids| - 1];
      ReleaseOne(ReleaseEach(s, held, ids[..|ids| - 1]), id, held[id])
  }

  /** Every held request, in the order it was raised, through the ordinary approval path. */
  ghost function ReleaseHeld(s: Agent): Agent {
    SettleGranted(ReleaseEach(s.(held := map[]), s.held, Ascending(s.held.Keys)))
  }

  ghost function CancelEach(s: Agent, held: map<RequestId, HeldSign>, ids: seq<RequestId>, reason: string): Agent
    requires forall id | id in ids :: id in held
  {
    if ids == [] then s
    else
      var id := ids[|ids| - 1];
      var s := CancelEach(s, held, ids[..|ids| - 1], reason);
      Emit(Reply(s, held[id].chan, Failure), RequestCancelled(id, reason))
  }

  ghost function CancelHeld(s: Agent, reason: string): Agent {
    CancelEach(s.(held := map[]), s.held, Ascending(s.held.Keys), reason)
  }

  ghost function FailEach(s: Agent, pending: map<RequestId, PendingSign>, ids: seq<RequestId>): Agent
    requires forall id | id in ids :: id in pending
  {
    if ids == [] then s
    else Reply(FailEach(s, pending, ids[..|ids| - 1]), pending[ids[|ids| - 1]].chan, Failure)
  }

  ghost function FailPending(s: Agent): Agent {
    FailEach(s.(pending := map[]), s.pending, Ascending(s.pending.Keys))
  }

  ghost function ReplyEach(s: Agent, chans: seq<Chan>, r: Response): Agent {
    if chans == [] then s
    else Reply(ReplyEach(s, chans[..|chans| - 1], r), chans[|chans| - 1], r)
  }

  ghost function ReleaseListing(s: Agent, reason: string): Agent {
    if s.listing.None? then s
    else
      var w := s.listing.value;
      var s := ReplyEach(s.(listing := None), w.waiting, Listing(ListKeys(s.store.public)));
      Emit(s, RequestCancelled(w.id, reason))
  }

  // ---- loading keys ----

  /** Add the items in order, stopping at the first that exceeds a limit. */
  function AddAll(c: Candidate, items: seq<Item>): (Candidate, bool)
    decreases |items|
  {
    if items == [] then (c, true)
    else
      var (c, result) := Add(c, items[0]);
      if result.Refused? then (c, false) else AddAll(c, items[1..])
  }

  /** `LoadWindow::decode`: the nonce is checked before the store is touched. */
  function Decode(store: Store, epoch: nat, nonce: seq<byte>, payload: Payload): (Store, Option<Candidate>) {
    match payload
    case ReadFailed => (store, None)
    case Bytes(size, envelope) =>
      if size > MAX_FILTERED_BYTES || envelope.None? then (store, None)
      else if !ValidNonce(envelope.value.0) || envelope.value.0 != nonce then (store, None)
      else
        var (store, candidate) := BeginLoad(store, epoch, size);
        if candidate.None? then (store, None)
        else
          var (c, complete) := AddAll(candidate.value, envelope.value.1);
          (store, if complete then Some(c) else None)
  }

  function LoadInto(store: Store, load: ActiveLoad): (Store, bool)
    requires load.payload.Some?
  {
    var (store, candidate) := Decode(store, load.epoch, load.nonce, load.payload.value);
    if candidate.None? then (store, false) else Publish(store, candidate.value)
  }

  ghost function AnnounceEach(s: Agent, epoch: nat, public: seq<PublicIdentity>): Agent {
    if public == [] then s
    else Emit(AnnounceEach(s, epoch, public[..|public| - 1]), PublicKey(epoch, public[|public| - 1]))
  }

  ghost function FinishLoad(s: Agent): (Agent, Outcome) {
    if s.load.None? || !s.load.value.ended || s.load.value.payload.None? then (s, StillLoading)
    else
      var load := s.load.value;
      var (store, ok) := LoadInto(s.store, load);
      if ok then
        var s := AnnounceEach(s.(load := None, store := store, gateOpen := true), load.epoch, store.public);
        (Emit(s, KeysLoaded(load.epoch, |store.private|)), Published)
      else
        var s := s.(load := None, store := Lock(store, load.epoch), gateOpen := false);
        (Emit(s, LoadFailed(load.epoch)), LoadRefused)
  }

  ghost function SettleLoad(s: Agent): Agent {
    var (s, outcome) := FinishLoad(s);
    match outcome
    case StillLoading => s
    case Published => ReleaseListing(ReleaseHeld(s), "released")
    case LoadRefused => ReleaseListing(CancelHeld(s, "load-failed"), "load-failed")
  }

  // ---- panel messages ----

  ghost function Deactivate(s: Agent, store: Store, reason: string): Agent {
    var s := s.(gateOpen := false, load := None, store := store, approvals := InvalidateAll(s.approvals));
    ReleaseListing(CancelHeld(FailPending(s), reason), reason)
  }

  ghost function OnDeny(s: Agent, id: RequestId): Agent {
    var s := s.(approvals := Disconnect(s.approvals, id));
    var s := if id in s.pending then Reply(s.(pending := s.pending - {id}), s.pending[id].chan, Failure) else s;
    var s := if id in s.held then Reply(s.(held := s.held - {id}), s.held[id].chan, Failure) else s;
    if s.listing.Some? && s.listing.value.id == id then ReleaseListing(s, "cancelled") else s
  }

  function Revoked(held: map<RequestId, HeldSign>): map<RequestId, HeldSign> {
    map id | id in held ::
      if held[id].approved.Some? then held[id].(approved := Some(Once)) else held[id]
  }

  ghost function OnLoadBegin(s: Agent, epoch: nat, loadId: seq<byte>): Agent {
    if s.load.Some? then s.(phase := Failed)
    else
      var s := FailPending(s.(gateOpen := false, approvals := InvalidateAll(s.approvals)));
      if !ValidNonce(loadId) then s.(phase := Failed)
      else s.(load := Some(ActiveLoad(epoch, loadId, None, false, None)))
  }

  ghost function OnLoadEnd(s: Agent, epoch: nat, ok: bool): Agent {
    if s.load.None? || s.load.value.epoch != epoch then s.(phase := Failed)
    else if !ok then
      var s := s.(load := None, store := Lock(s.store, epoch), gateOpen := false);
      ReleaseListing(CancelHeld(s, "load-failed"), "load-failed")
    else
      var deadline := SatAdd(Now(s), LOAD_END_GRACE_MS);
      SettleLoad(ReadClock(s).(load := Some(s.load.value.(ended := true, deadline := Some(deadline)))))
  }

  /** Leaving the loop: everything waiting is answered and the keys are dropped. */
  ghost function Finish(s: Agent): Agent {
    var s := s.(approvals := InvalidateAll(s.approvals), load := None);
    var s := ReleaseListing(CancelHeld(FailPending(s), "shutdown"), "shutdown");
    s.(store := Logout(s.store, SatAdd(s.store.tracker.epoch, 1)), phase := Stopped)
  }

  ghost function OnHello(s: Agent): Agent {
    if s.handshake then s.(phase := Failed) else Emit(s.(handshake := true, gateOpen := true), Ready)
  }

  ghost function OnControl(s: Agent, c: Control): Agent {
    var s := Note(s, Told(c));
    match c
    case Hello => OnHello(s)
    case VaultLocked(epoch) => Emit(Deactivate(s, Lock(s.store, epoch), "locked"), LockedAck(epoch))
    case VaultLoggedOut => Deactivate(s, Logout(s.store, SatAdd(s.store.tracker.epoch, 1)), "logged-out")
    case ApproveRequest(id, duration) => OnApprove(s, id, duration)
    case Deny(id) => OnDeny(s, id)
    case UnlockCancelled(id) => OnDeny(s, id)
    case Options(on) => s.(unlockOnDemand := on)
    case RevokeGrants => s.(approvals := RevokeAllGrants(s.approvals), held := Revoked(s.held))
    case RevokeOne(grantId) => s.(approvals := RevokeGrant(s.approvals, grantId))
    case Shutdown => Finish(s)
    case KeyLoadBegin(epoch, loadId) => OnLoadBegin(s, epoch, loadId)
    case KeyLoadEnd(epoch, ok) => OnLoadEnd(s, epoch, ok)
  }

  ghost function OnPayload(s: Agent, epoch: nat, payload: Payload): Agent {
    if s.load.None? || s.load.value.epoch != epoch then s
    else SettleLoad(s.(load := Some(s.load.value.(payload := Some(payload)))))
  }

  // ---- the clock tick ----

  ghost function WithdrawEach(s: Agent, ids: seq<RequestId>): Agent {
    if ids == [] then s
    else
      var id := ids[|ids| - 1];
      var s := WithdrawEach(s, ids[..|ids| - 1]);
      var s := s.(approvals := Disconnect(s.approvals, id));
      var s := if id in s.pending then Reply(s.(pending := s.pending - {id}), s.pending[id].chan, Failure) else s;
      Emit(s, RequestCancelled(id, "withdrawn"))
  }

  ghost function DropEach(s: Agent, ids: seq<RequestId>): Agent {
    if ids == [] then s
    else
      var id := ids[|ids| - 1];
      var s := DropEach(s, ids[..|ids| - 1]);
      var s := if id in s.held then Reply(s.(held := s.held - {id}), s.held[id].chan, Failure) else s;
      Emit(s, RequestCancelled(id, "withdrawn"))
  }

  ghost function ExpiredIds(s: Agent, closed: set<Chan>): set<RequestId> {
    set id | id in s.pending && (s.pending[id].chan in closed || !IsQueued(s.approvals, id))
  }

  ghost function StaleIds(s: Agent, closed: set<Chan>, now: nat): set<RequestId> {
    set id | id in s.held && (s.held[id].chan in closed || s.held[id].deadline <= now)
  }

  predicate ListingDone(w: HeldListing, closed: set<Chan>, now: nat) {
    w.deadline <= now || forall i | 0 <= i < |w.waiting| :: w.waiting[i] in closed
  }

  function GrantIds(grants: seq<Grant>): seq<GrantId> {
    if grants == [] then [] else [grants[0].id] + GrantIds(grants[1..])
  }

  ghost function EmitGrants(s: Agent): Agent {
    var current := GrantIds(s.approvals.grants);
    if current == s.snapshot then s
    else Emit(s.(snapshot := current), GrantsChanged(s.approvals.grants))
  }

  ghost function ExpireLoad(s: Agent, now: nat): Agent {
    if s.load.Some? && s.load.value.payload.None? && s.load.value.deadline.Some?
       && now >= s.load.value.deadline.value then
      SettleLoad(s.(load := Some(s.load.value.(payload := Some(ReadFailed)))))
    else s
  }

  /** `closed` is the set of clients that have left. */
  ghost function OnTick(s: Agent, closed: set<Chan>): Agent {
    var now := Now(s);
    var s := ReadClock(s);
    var s := ExpireLoad(s.(approvals := Expire(s.approvals, now)), now);
    var s := WithdrawEach(s, Ascending(ExpiredIds(s, closed)));
    var s := DropEach(s, Ascending(StaleIds(s, closed, now)));
    var s := if s.listing.Some? && ListingDone(s.listing.value, closed, now) then ReleaseListing(s, "withdrawn") else s;
    EmitGrants(s)
  }

  // ---- the loop ----

  datatype Event = FromPanel(control: Control) | PanelClosed | PanelGarbled
                 | FromClient(client: Client) | FromFifo(epoch: nat, payload: Payload)
                 | Tick(closed: set<Chan>)

  ghost function Step(s: Agent, e: Event): Agent {
    if s.phase != Running then s
    else
      match e
      case FromPanel(c) => OnControl(s, c)
      case PanelClosed => Finish(Note(s, Told(Shutdown)))
      case PanelGarbled => s.(phase := Failed)
      case FromClient(c) => HandleClient(s, c)
      case FromFifo(epoch, payload) => OnPayload(s, epoch, payload)
      case Tick(closed) => OnTick(s, closed)
  }

  ghost function Run(s: Agent, events: seq<Event>): Agent {
    if events == [] then s else Step(Run(s, events[..|events| - 1]), events[|events| - 1])
  }
}
