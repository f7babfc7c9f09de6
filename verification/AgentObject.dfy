/** The agent's event loop as the object that owns every table: one method per arm, each
    proved to do exactly what the corresponding function of `AgentModel` says. What the
    invariant proves of runs of those functions therefore holds of runs of this object. */
module AgentObject {
  import opened Base
  import opened KeyStoreModel
  import opened ApprovalModel
  import opened ObserverModel
  import opened FifoModel
  import opened AgentModel
  import opened KeyStoreObject
  import opened ApprovalObject
  import opened AgentSafety
  import opened AgentTheorems

  class AgentLoop {
    const store: KeyStore
    const approvals: ApprovalManager
    const clock: nat -> nat
    var readings: nat
    var phase: Phase
    var handshake: bool
    var gateOpen: bool
    var unlockOnDemand: bool
    var pending: map<RequestId, PendingSign>
    var held: map<RequestId, HeldSign>
    var listing: Option<HeldListing>
    var load: Option<ActiveLoad>
    var snapshot: seq<GrantId>
    var nextChan: Chan
    ghost var log: Log

    ghost function View(): Agent
      reads this, store, store.tracker, approvals
    {
      Agent(phase, handshake, gateOpen, unlockOnDemand, store.View(), approvals.View(), pending, held, listing,
            load, snapshot, nextChan, clock, readings, log)
    }

    ghost predicate Valid()
      reads this, store, store.tracker
    {
      store.Valid()
    }

    constructor (uid: nat, time: nat -> nat)
      ensures Valid() && View() == Init(uid, time)
      ensures fresh(store) && fresh(store.tracker) && fresh(approvals)
    {
      store := new KeyStore();
      approvals := new ApprovalManager(uid);
      clock, readings := time, 0;
      phase, handshake, gateOpen, unlockOnDemand := Running, false, false, false;
      pending, held, listing, load, snapshot, nextChan := map[], map[], None, None, [], 0;
      log := Empty;
    }

    // ---- the outside world ----

    method ElapsedMs() returns (now: nat)
      modifies this`readings, this`log
      ensures now == Now(old(View())) && View() == ReadClock(old(View()))
    {
      now := Min(clock(readings), U64_MAX);
      readings := readings + 1;
      log := Then(log, Clock(now));
    }

    method Emit(o: Output)
      modifies this`log
      ensures View() == AgentModel.Emit(old(View()), o)
    {
      log := Then(log, Emitted(o));
    }

    method Reply(chan: Chan, r: Response)
      modifies this`log
      ensures View() == AgentModel.Reply(old(View()), chan, r)
    {
      log := Then(log, Replied(chan, r));
    }

    ghost method Hear(c: Control)
      modifies this`log
      ensures View() == Note(old(View()), Told(c))
    {
      log := Then(log, Told(c));
    }

    // ---- answers ----

    method AuthorizedSignature(a: Authorization, message: seq<byte>, flags: nat) returns (r: Response)
      requires Valid()
      ensures r == AgentModel.AuthorizedSignature(store.View(), a, message, flags)
    {
      var permit := store.Authorize(a.blob);
      if permit.None? || store.tracker.epoch != a.epoch {
        return Failure;
      }
      var signature := store.Sign(permit.value, message, flags);
      if signature.None? {
        return Failure;
      }
      return Signed(signature.value);
    }

    method Answer(chan: Chan, a: Option<Authorization>, message: seq<byte>, flags: nat)
      requires Valid()
      modifies this`log
      ensures View() == AgentModel.Answer(old(View()), chan, a, message, flags)
    {
      var r := Failure;
      if a.Some? {
        r := AuthorizedSignature(a.value, message, flags);
      }
      Reply(chan, r);
    }

    method FindPublic(blob: Blob) returns (key: Option<PublicIdentity>)
      ensures key == AgentModel.FindPublic(store.public, blob)
    {
      for i := 0 to |store.public|
        invariant AgentModel.FindPublic(store.public, blob) == AgentModel.FindPublic(store.public[i..], blob)
      {
        if store.public[i].blob == blob {
          return Some(store.public[i]);
        }
        assert store.public[i..][1..] == store.public[i + 1..];
      }
      return None;
    }

    method Identities() returns (r: Response)
      ensures r == Listing(ListKeys(store.public))
    {
      var keys := [];
      for i := 0 to |store.public|
        invariant keys + ListKeys(store.public[i..]) == ListKeys(store.public)
      {
        assert store.public[i..][1..] == store.public[i + 1..];
        keys := keys + [(store.public[i].blob, store.public[i].name)];
      }
      return Listing(keys);
    }

    // ---- a request from a client ----

    method HandleClient(c: Client)
      requires Valid()
      modifies this, approvals
      ensures Valid() && View() == AgentModel.HandleClient(old(View()), c)
    {
      hide AgentModel.HandleListing, AgentModel.HandleSign, AgentModel.HoldSign;
      var chan := nextChan;
      nextChan := chan + 1;
      log := Then(log, Delivered(chan, c));
      match c.request
      case SessionBind => Reply(chan, Failure);
      case Identities => HandleListing(chan, c);
      case SignData(blob, message, flags) =>
        if gateOpen {
          HandleSign(chan, c);
        } else {
          HoldSign(chan, c);
        }
    }

    method HandleListing(chan: Chan, c: Client)
      requires Valid()
      modifies this, approvals
      ensures Valid() && View() == AgentModel.HandleListing(old(View()), chan, c)
    {
      if |store.public| == 0 && unlockOnDemand && c.peer.uid == approvals.uid {
        if listing.Some? {
          listing := Some(listing.value.(waiting := listing.value.waiting + [chan]));
          return;
        }
        var id := approvals.Reserve();
        if id.Some? {
          Emit(UnlockRequired(id.value, chan, None, c.peer, Scope(c), false));
          var now := ElapsedMs();
          listing := Some(HeldListing(id.value, SatAdd(now, HELD_LIFETIME_MS), [chan]));
          return;
        }
      }
      var r := Identities();
      Reply(chan, r);
    }

    method HoldSign(chan: Chan, c: Client)
      requires Valid() && c.request.SignData?
      modifies this, approvals
      ensures Valid() && View() == AgentModel.HoldSign(old(View()), chan, c)
    {
      var key := FindPublic(c.request.blob);
      if key.None? || c.peer.uid != approvals.uid || CapacityRemaining(approvals.View(), |held|) == 0 {
        Reply(chan, Failure);
        return;
      }
      var id := approvals.Reserve();
      if id.None? {
        Reply(chan, Failure);
        return;
      }
      Emit(UnlockRequired(id.value, chan, key, c.peer, Scope(c), Grantable(Scope(c))));
      var now := ElapsedMs();
      held := held[id.value := HeldSign(chan, c.request.blob, c.request.message, c.request.flags, c.peer, Scope(c),
                                        SatAdd(now, HELD_LIFETIME_MS), None)];
    }

    method HandleSign(chan: Chan, c: Client)
      requires Valid() && c.request.SignData?
      modifies this, approvals
      ensures Valid() && View() == AgentModel.HandleSign(old(View()), chan, c)
    {
      var permit := store.Authorize(c.request.blob);
      if permit.None? {
        Reply(chan, Failure);
        return;
      }
      SubmitSign(chan, c.request.blob, c.request.message, c.request.flags, c.peer, Scope(c));
    }

    method SubmitSign(chan: Chan, blob: Blob, message: seq<byte>, flags: nat, peer: Peer, scope: SignScope)
      requires Valid()
      modifies this, approvals
      ensures Valid() && View() == AgentModel.SubmitSign(old(View()), chan, blob, message, flags, peer, scope)
    {
      var now := ElapsedMs();
      var submitted := approvals.Submit(store.tracker.epoch, blob, peer, scope, now);
      match submitted
      case Granted(authorization) =>
        var r := AuthorizedSignature(authorization, message, flags);
        Reply(chan, r);
      case Queued(id) =>
        var key := FindPublic(blob);
        if key.None? {
          approvals.Disconnect(id);
          Reply(chan, Failure);
        } else {
          Emit(ApprovalRequired(id, chan, key.value, peer, scope, Grantable(scope)));
          pending := pending[id := PendingSign(chan, message, flags)];
        }
      case Rejected => Reply(chan, Failure);
    }

    // ---- approvals ----

    method ApproveQueued(id: RequestId, chan: Chan, duration: GrantDuration) returns (a: Option<Authorization>)
      requires Valid()
      modifies this, approvals
      ensures Valid() && (View(), a) == AgentModel.ApproveQueued(old(View()), id, chan, duration)
    {
      var now := ElapsedMs();
      ghost var before := approvals.nextGrantId;
      a := approvals.Approve(id, duration, now);
      if approvals.nextGrantId > before && approvals.grants != [] {
        log := Then(log, Opened(approvals.grants[|approvals.grants| - 1], chan));
      }
    }

    method OnApprove(id: RequestId, duration: GrantDuration)
      requires Valid()
      modifies this, approvals
      ensures Valid() && View() == AgentModel.OnApprove(old(View()), id, duration)
    {
      if id in held {
        held := held[id := held[id].(approved := Some(duration))];
        return;
      }
      if id !in pending {
        return;
      }
      var sign := pending[id];
      pending := pending - {id};
      var authorization := ApproveQueued(id, sign.chan, duration);
      Answer(sign.chan, authorization, sign.message, sign.flags);
      if duration != Once {
        SettleGranted();
      }
    }

    method SettleOne(r: Request)
      requires Valid()
      modifies this
      ensures Valid() && View() == AgentModel.SettleOne(old(View()), r)
    {
      if r.id in pending {
        var sign := pending[r.id];
        pending := pending - {r.id};
        var response := AuthorizedSignature(Authorization(r.epoch, r.blob), sign.message, sign.flags);
        Reply(sign.chan, response);
      }
      Emit(RequestCancelled(r.id, "granted"));
    }

    method SettleGranted()
      requires Valid()
      modifies this, approvals
      ensures Valid() && View() == AgentModel.SettleGranted(old(View()))
    {
      var now := ElapsedMs();
      var released := approvals.ReleaseGranted(now);
      ghost var s := View();
      for i := 0 to |released|
        invariant Valid() && View() == SettleEach(s, released[..i])
      {
        assert released[..i + 1][..i] == released[..i];
        SettleOne(released[i]);
      }
      assert released[..|released|] == released;
    }

    // ---- held requests ----

    method SubmitApproved(h: HeldSign, duration: GrantDuration)
      requires Valid()
      modifies this, approvals
      ensures Valid() && View() == AgentModel.SubmitApproved(old(View()), h, duration)
    {
      var now := ElapsedMs();
      var submitted := approvals.Submit(store.tracker.epoch, h.blob, h.peer, h.scope, now);
      match submitted
      case Granted(a) => Answer(h.chan, Some(a), h.message, h.flags);
      case Queued(id) =>
        var a := ApproveQueued(id, h.chan, duration);
        Answer(h.chan, a, h.message, h.flags);
      case Rejected => Reply(h.chan, Failure);
    }

    method ReleaseOne(id: RequestId, h: HeldSign)
      requires Valid()
      modifies this, approvals
      ensures Valid() && View() == AgentModel.ReleaseOne(old(View()), id, h)
    {
      Emit(RequestCancelled(id, "released"));
      var permit := store.Authorize(h.blob);
      if permit.None? {
        Reply(h.chan, Failure);
      } else if h.approved.Some? {
        SubmitApproved(h, h.approved.value);
      } else {
        SubmitSign(h.chan, h.blob, h.message, h.flags, h.peer, h.scope);
      }
    }

    method ReleaseIds(released: map<RequestId, HeldSign>, ids: seq<RequestId>)
      requires Valid() && forall id | id in ids :: id in released
      modifies this, approvals
      ensures Valid() && View() == ReleaseEach(old(View()), released, ids)
    {
      hide AgentModel.ReleaseOne;
      ghost var s := View();
      for i := 0 to |ids|
        invariant Valid() && View() == ReleaseEach(s, released, ids[..i])
      {
        assert ids[..i + 1][..i] == ids[..i];
        ReleaseOne(ids[i], released[ids[i]]);
      }
      assert ids[..|ids|] == ids;
    }

    /** In the order the prompts were raised. */
    method ReleaseHeld()
      requires Valid()
      modifies this, approvals
      ensures Valid() && View() == AgentModel.ReleaseHeld(old(View()))
    {
      hide ReleaseEach, AgentModel.SettleGranted;
      var released := held;
      var ids := Sort(released.Keys);
      held := map[];
      ReleaseIds(released, ids);
      SettleGranted();
    }

    method CancelIds(cancelled: map<RequestId, HeldSign>, ids: seq<RequestId>, reason: string)
      requires forall id | id in ids :: id in cancelled
      modifies this`log
      ensures View() == CancelEach(old(View()), cancelled, ids, reason)
    {
      ghost var s := View();
      for i := 0 to |ids|
        invariant View() == CancelEach(s, cancelled, ids[..i], reason)
      {
        assert ids[..i + 1][..i] == ids[..i];
        Reply(cancelled[ids[i]].chan, Failure);
        Emit(RequestCancelled(ids[i], reason));
      }
      assert ids[..|ids|] == ids;
    }

    method CancelHeld(reason: string)
      requires Valid()
      modifies this`held, this`log
      ensures Valid() && View() == AgentModel.CancelHeld(old(View()), reason)
    {
      hide CancelEach;
      var cancelled := held;
      var ids := Sort(cancelled.Keys);
      held := map[];
      CancelIds(cancelled, ids, reason);
    }

    method FailIds(failed: map<RequestId, PendingSign>, ids: seq<RequestId>)
      requires forall id | id in ids :: id in failed
      modifies this`log
      ensures View() == FailEach(old(View()), failed, ids)
    {
      ghost var s := View();
      for i := 0 to |ids|
        invariant View() == FailEach(s, failed, ids[..i])
      {
        assert ids[..i + 1][..i] == ids[..i];
        Reply(failed[ids[i]].chan, Failure);
      }
      assert ids[..|ids|] == ids;
    }

    method FailPending()
      requires Valid()
      modifies this`pending, this`log
      ensures Valid() && View() == AgentModel.FailPending(old(View()))
    {
      hide FailEach;
      var failed := pending;
      var ids := Sort(failed.Keys);
      pending := map[];
      FailIds(failed, ids);
    }

    method ReleaseListing(reason: string)
      requires Valid()
      modifies this`listing, this`log
      ensures Valid() && View() == AgentModel.ReleaseListing(old(View()), reason)
    {
      if listing.None? {
        return;
      }
      var w := listing.value;
      listing := None;
      var r := Identities();
      ghost var s := View();
      for i := 0 to |w.waiting|
        invariant View() == ReplyEach(s, w.waiting[..i], r)
      {
        assert w.waiting[..i + 1][..i] == w.waiting[..i];
        Reply(w.waiting[i], r);
      }
      assert w.waiting[..|w.waiting|] == w.waiting;
      Emit(RequestCancelled(w.id, reason));
    }

    // ---- loading keys ----

    /** The candidate a payload describes, or null; the nonce is checked first. */
    method Decode(epoch: nat, nonce: seq<byte>, payload: Payload) returns (candidate: CandidateLoad?)
      requires Valid()
      modifies store, store.tracker
      ensures Valid() && store.View() == AgentModel.Decode(old(store.View()), epoch, nonce, payload).0
      ensures candidate == null <==> AgentModel.Decode(old(store.View()), epoch, nonce, payload).1.None?
      ensures candidate != null ==>
                && fresh(candidate) && candidate.Valid()
                && Some(candidate.View()) == AgentModel.Decode(old(store.View()), epoch, nonce, payload).1
    {
      if payload.ReadFailed? || payload.size > MAX_FILTERED_BYTES || payload.envelope.None? {
        return null;
      }
      var (loadId, items) := payload.envelope.value;
      if !ValidNonce(loadId) || loadId != nonce {
        return null;
      }
      candidate := store.BeginLoad(epoch, payload.size);
      if candidate == null {
        return null;
      }
      ghost var empty := candidate.View();
      for i := 0 to |items|
        modifies candidate
        invariant fresh(candidate) && candidate.Valid()
        invariant AddAll(empty, items) == AddAll(candidate.View(), items[i..])
      {
        assert items[i..][1..] == items[i + 1..];
        var result := candidate.Add(items[i]);
        if result.Refused? {
          return null;
        }
      }
    }

    method FinishLoad() returns (outcome: Outcome)
      requires Valid()
      modifies this, store, store.tracker
      ensures Valid() && (View(), outcome) == AgentModel.FinishLoad(old(View()))
    {
      hide AgentModel.Decode, AnnounceEach;
      if load.None? || !load.value.ended || load.value.payload.None? {
        return StillLoading;
      }
      var l := load.value;
      load := None;
      var candidate := Decode(l.epoch, l.nonce, l.payload.value);
      var ok := false;
      if candidate != null {
        ok := store.Publish(candidate);
      }
      if !ok {
        store.Lock(l.epoch);
        gateOpen := false;
        Emit(LoadFailed(l.epoch));
        return LoadRefused;
      }
      gateOpen := true;
      Announce(l.epoch);
      Emit(KeysLoaded(l.epoch, |store.private|));
      return Published;
    }

    method Announce(epoch: nat)
      requires Valid()
      modifies this`log
      ensures View() == AnnounceEach(old(View()), epoch, store.public)
    {
      ghost var s := View();
      for i := 0 to |store.public|
        invariant View() == AnnounceEach(s, epoch, store.public[..i])
      {
        assert store.public[..i + 1][..i] == store.public[..i];
        Emit(PublicKey(epoch, store.public[i]));
      }
      assert store.public[..|store.public|] == store.public;
    }

    method SettleLoad()
      requires Valid()
      modifies this, store, store.tracker, approvals
      ensures Valid() && View() == AgentModel.SettleLoad(old(View()))
    {
      var outcome := FinishLoad();
      match outcome
      case StillLoading =>
      case Published =>
        ReleaseHeld();
        ReleaseListing("released");
      case LoadRefused =>
        CancelHeld("load-failed");
        ReleaseListing("load-failed");
    }

    // ---- panel messages ----

    method Drain(reason: string)
      requires Valid()
      modifies this
      ensures Valid()
      ensures View() ==
              AgentModel.ReleaseListing(AgentModel.CancelHeld(AgentModel.FailPending(old(View())), reason), reason)
    {
      FailPending();
      CancelHeld(reason);
      ReleaseListing(reason);
    }

    method OnDeny(id: RequestId)
      requires Valid()
      modifies this, approvals
      ensures Valid() && View() == AgentModel.OnDeny(old(View()), id)
    {
      approvals.Disconnect(id);
      if id in pending {
        var sign := pending[id];
        pending := pending - {id};
        Reply(sign.chan, Failure);
      }
      if id in held {
        var request := held[id];
        held := held - {id};
        Reply(request.chan, Failure);
      }
      if listing.Some? && listing.value.id == id {
        ReleaseListing("cancelled");
      }
    }

    method OnLoadBegin(epoch: nat, loadId: seq<byte>)
      requires Valid()
      modifies this, approvals
      ensures Valid() && View() == AgentModel.OnLoadBegin(old(View()), epoch, loadId)
    {
      if load.Some? {
        phase := Failed;
        return;
      }
      gateOpen := false;
      approvals.InvalidateAll();
      FailPending();
      if !ValidNonce(loadId) {
        phase := Failed;
        return;
      }
      load := Some(ActiveLoad(epoch, loadId, None, false, None));
    }

    method OnLoadEnd(epoch: nat, ok: bool)
      requires Valid()
      modifies this, store, store.tracker, approvals
      ensures Valid() && View() == AgentModel.OnLoadEnd(old(View()), epoch, ok)
    {
      hide AgentModel.SettleLoad, AgentModel.CancelHeld, AgentModel.ReleaseListing;
      if load.None? || load.value.epoch != epoch {
        phase := Failed;
        return;
      }
      if !ok {
        load := None;
        store.Lock(epoch);
        gateOpen := false;
        CancelHeld("load-failed");
        ReleaseListing("load-failed");
        return;
      }
      var now := ElapsedMs();
      load := Some(load.value.(ended := true, deadline := Some(SatAdd(now, LOAD_END_GRACE_MS))));
      SettleLoad();
    }

    /** Leave the loop: answer everything, then drop the keys. */
    method Finish()
      requires Valid()
      modifies this, store, store.tracker, approvals
      ensures Valid() && View() == AgentModel.Finish(old(View()))
    {
      approvals.InvalidateAll();
      load := None;
      Drain("shutdown");
      store.Logout(SatAdd(store.tracker.epoch, 1));
      phase := Stopped;
    }

    method Deactivate(reason: string)
      requires Valid()
      modifies this, approvals
      ensures Valid() && View() == AgentModel.Deactivate(old(View()), old(View()).store, reason)
    {
      gateOpen := false;
      load := None;
      approvals.InvalidateAll();
      Drain(reason);
    }

    method OnLock(epoch: nat)
      requires Valid()
      modifies this, store, store.tracker, approvals
      ensures Valid()
      ensures View() == AgentModel.Emit(AgentModel.Deactivate(old(View()), Lock(old(View()).store, epoch), "locked"),
                                        LockedAck(epoch))
    {
      store.Lock(epoch);
      Deactivate("locked");
      Emit(LockedAck(epoch));
    }

    method OnLogout()
      requires Valid()
      modifies this, store, store.tracker, approvals
      ensures Valid()
      ensures var s := old(View());
              View() == AgentModel.Deactivate(s, Logout(s.store, SatAdd(s.store.tracker.epoch, 1)), "logged-out")
    {
      store.Logout(SatAdd(store.tracker.epoch, 1));
      Deactivate("logged-out");
    }

    method OnHello()
      requires Valid()
      modifies this
      ensures Valid() && View() == AgentModel.OnHello(old(View()))
    {
      if handshake {
        phase := Failed;
      } else {
        handshake, gateOpen := true, true;
        Emit(Ready);
      }
    }

    method OnRevokeAll()
      requires Valid()
      modifies this, approvals
      ensures Valid()
      ensures var s := old(View());
              View() == s.(approvals := RevokeAllGrants(s.approvals), held := Revoked(s.held))
    {
      approvals.RevokeAllGrants();
      held := Revoked(held);
    }

    method OnControl(c: Control)
      requires Valid()
      modifies this, store, store.tracker, approvals
      ensures Valid() && View() == AgentModel.OnControl(old(View()), c)
    {
      hide Revoked, AgentModel.OnHello, AgentModel.OnApprove, AgentModel.OnDeny, AgentModel.Finish,
           AgentModel.OnLoadBegin, AgentModel.OnLoadEnd,
           AgentModel.Deactivate;
      Hear(c);
      match c
      case Hello => OnHello();
      case VaultLocked(epoch) => OnLock(epoch);
      case VaultLoggedOut => OnLogout();
      case ApproveRequest(id, duration) => OnApprove(id, duration);
      case Deny(id) => OnDeny(id);
      case UnlockCancelled(id) => OnDeny(id);
      case Options(on) => unlockOnDemand := on;
      case RevokeGrants => OnRevokeAll();
      case RevokeOne(grantId) => approvals.RevokeGrant(grantId);
      case Shutdown => Finish();
      case KeyLoadBegin(epoch, loadId) => OnLoadBegin(epoch, loadId);
      case KeyLoadEnd(epoch, ok) => OnLoadEnd(epoch, ok);
    }

    method OnPayload(epoch: nat, payload: Payload)
      requires Valid()
      modifies this, store, store.tracker, approvals
      ensures Valid() && View() == AgentModel.OnPayload(old(View()), epoch, payload)
    {
      if load.Some? && load.value.epoch == epoch {
        load := Some(load.value.(payload := Some(payload)));
        SettleLoad();
      }
    }

    // ---- the clock tick ----

    method Withdraw(ids: seq<RequestId>)
      requires Valid()
      modifies this, approvals
      ensures Valid() && View() == WithdrawEach(old(View()), ids)
    {
      ghost var s := View();
      for i := 0 to |ids|
        invariant Valid() && View() == WithdrawEach(s, ids[..i])
      {
        assert ids[..i + 1][..i] == ids[..i];
        approvals.Disconnect(ids[i]);
        if ids[i] in pending {
          var sign := pending[ids[i]];
          pending := pending - {ids[i]};
          Reply(sign.chan, Failure);
        }
        Emit(RequestCancelled(ids[i], "withdrawn"));
      }
      assert ids[..|ids|] == ids;
    }

    method Drop(ids: seq<RequestId>)
      requires Valid()
      modifies this
      ensures Valid() && View() == DropEach(old(View()), ids)
    {
      ghost var s := View();
      for i := 0 to |ids|
        invariant Valid() && View() == DropEach(s, ids[..i])
      {
        assert ids[..i + 1][..i] == ids[..i];
        if ids[i] in held {
          var request := held[ids[i]];
          held := held - {ids[i]};
          Reply(request.chan, Failure);
        }
        Emit(RequestCancelled(ids[i], "withdrawn"));
      }
      assert ids[..|ids|] == ids;
    }

    method EmitGrants()
      requires Valid()
      modifies this
      ensures Valid() && View() == AgentModel.EmitGrants(old(View()))
    {
      var current := GrantIds(approvals.grants);
      if current != snapshot {
        snapshot := current;
        Emit(GrantsChanged(approvals.grants));
      }
    }

    method ExpireLoad(now: nat)
      requires Valid()
      modifies this, store, store.tracker, approvals
      ensures Valid() && View() == AgentModel.ExpireLoad(old(View()), now)
    {
      if load.Some? && load.value.payload.None? && load.value.deadline.Some? && now >= load.value.deadline.value {
        load := Some(load.value.(payload := Some(ReadFailed)));
        SettleLoad();
      }
    }

    method OnTick(closed: set<Chan>)
      requires Valid()
      modifies this, store, store.tracker, approvals
      ensures Valid() && View() == AgentModel.OnTick(old(View()), closed)
    {
      var now := ElapsedMs();
      approvals.Expire(now);
      ExpireLoad(now);
      var expired := Sort(set id | id in pending && (pending[id].chan in closed || !IsQueued(approvals.View(), id)));
      Withdraw(expired);
      var stale := Sort(set id | id in held && (held[id].chan in closed || held[id].deadline <= now));
      Drop(stale);
      if listing.Some? && ListingDone(listing.value, closed, now) {
        ReleaseListing("withdrawn");
      }
      EmitGrants();
    }

    // ---- the loop ----

    /** One turn of the loop does what the model's step does. */
    method Turn(e: Event)
      requires Valid()
      modifies this, store, store.tracker, approvals
      ensures Valid() && View() == Step(old(View()), e)
    {
      hide AgentModel.OnControl, AgentModel.Finish, AgentModel.HandleClient, AgentModel.OnPayload, AgentModel.OnTick;
      if phase != Running {
        return;
      }
      match e
      case FromPanel(c) => OnControl(c);
      case PanelClosed =>
        Hear(Shutdown);
        Finish();
      case PanelGarbled => phase := Failed;
      case FromClient(c) => HandleClient(c);
      case FromFifo(epoch, payload) => OnPayload(epoch, payload);
      case Tick(closed) => OnTick(closed);
    }
  }

  /** A whole life of the agent: whatever events arrive, if the panel starts with `hello`
      the log it leaves is one the reference monitor accepts, and its tables agree. */
  method Serve(uid: nat, clock: nat -> nat, events: seq<Event>) returns (agent: AgentLoop)
    ensures agent.Valid() && agent.View() == Run(Init(uid, clock), events)
    ensures HelloFirst(events) ==> Inv(agent.View()) && Accepted(agent.log, uid)
  {
    hide Step, Inv, Accepted;
    agent := new AgentLoop(uid, clock);
    for i := 0 to |events|
      invariant fresh(agent) && fresh(agent.store) && fresh(agent.store.tracker) && fresh(agent.approvals)
      invariant agent.Valid() && agent.View() == Run(Init(uid, clock), events[..i])
    {
      assert events[..i + 1][..i] == events[..i];
      agent.Turn(events[i]);
    }
    assert events[..|events|] == events;
    if HelloFirst(events) {
      RunKeeps(uid, clock, events);
      InvAccepts(agent.View());
    }
  }

  lemma InvAccepts(s: Agent)
    requires Inv(s)
    ensures Accepted(s.log, s.approvals.uid)
  {
  }
}
