/** A grant leaves nothing it covers waiting: at every event boundary of every run, no
    queued request is covered by a grant the manager holds. */
module AgentSettled {
  import opened Base
  import opened ApprovalModel
  import opened ObserverModel
  import opened AgentModel
  import opened AgentSends
  import opened KeyStoreModel

  ghost predicate NoneCovered(m: Manager) {
    forall r | r in m.queue :: !RequestCovered(m.grants, r)
  }

  lemma WithinKeeps(m: Manager, m': Manager)
    requires NoneCovered(m) && Within(m', m)
    ensures NoneCovered(m')
  {
    forall r | r in m'.queue ensures !RequestCovered(m'.grants, r) {
      forall i | 0 <= i < |m'.grants| ensures !GrantCovers(m'.grants[i], r.epoch, r.blob, r.peer, r.scope) {
        var g := m'.grants[i];
        assert g in m.grants;
        var k :| 0 <= k < |m.grants| && m.grants[k] == g;
        assert !RequestCovered(m.grants, r);
      }
    }
  }

  lemma SubmitKeeps(m: Manager, epoch: nat, blob: seq<byte>, peer: Peer, scope: SignScope, now: nat)
    requires NoneCovered(m)
    ensures NoneCovered(Submit(m, epoch, blob, peer, scope, now).0)
  {
    var m1 := Expire(m, now);
    WithinKeeps(m, m1);
  }

  lemma ReleaseLeavesNone(m: Manager, now: nat)
    ensures NoneCovered(ReleaseGranted(m, now).0)
  {
  }

  lemma SettledAfterwards(s: Agent)
    ensures NoneCovered(SettleGranted(s).approvals)
  {
    var (approvals, released) := ReleaseGranted(s.approvals, Now(s));
    hide ReleaseGranted, NoneCovered;
    ReleaseLeavesNone(s.approvals, Now(s));
    SettleEachSends(ReadClock(s).(approvals := approvals), released);
  }

  lemma SubmitSignKeeps(s: Agent, chan: Chan, blob: seq<byte>, message: seq<byte>, flags: nat, peer: Peer,
                        scope: SignScope)
    requires NoneCovered(s.approvals)
    ensures NoneCovered(SubmitSign(s, chan, blob, message, flags, peer, scope).approvals)
  {
    hide NoneCovered, Submit;
    var (m, submitted) := Submit(s.approvals, s.store.tracker.epoch, blob, peer, scope, Now(s));
    SubmitKeeps(s.approvals, s.store.tracker.epoch, blob, peer, scope, Now(s));
    if submitted.Queued? { DisconnectKeeps(m, submitted.id); }
  }

  lemma DisconnectKeeps(m: Manager, id: RequestId)
    requires NoneCovered(m)
    ensures NoneCovered(Disconnect(m, id))
  {
    WithinKeeps(m, Disconnect(m, id));
  }

  // ---- one event ----

  lemma ReserveKeeps(m: Manager)
    requires NoneCovered(m)
    ensures NoneCovered(Reserve(m).0)
  {
    WithinKeeps(m, Reserve(m).0);
  }

  lemma ListingSettled(s: Agent, chan: Chan, c: Client)
    requires NoneCovered(s.approvals)
    ensures NoneCovered(HandleListing(s, chan, c).approvals)
  {
    hide NoneCovered, Reserve, ListKeys;
    ReserveKeeps(s.approvals);
  }

  lemma HoldSettled(s: Agent, chan: Chan, c: Client)
    requires NoneCovered(s.approvals) && c.request.SignData?
    ensures NoneCovered(HoldSign(s, chan, c).approvals)
  {
    hide NoneCovered, Reserve, FindPublic;
    ReserveKeeps(s.approvals);
  }

  lemma ClientSettled(s: Agent, c: Client)
    requires NoneCovered(s.approvals)
    ensures NoneCovered(HandleClient(s, c).approvals)
  {
    hide NoneCovered, SubmitSign, HandleListing, HoldSign, Authorize;
    var s1 := Note(s.(nextChan := s.nextChan + 1), Delivered(s.nextChan, c));
    ListingSettled(s1, s.nextChan, c);
    if c.request.SignData? {
      HoldSettled(s1, s.nextChan, c);
      SubmitSignKeeps(s1, s.nextChan, c.request.blob, c.request.message, c.request.flags, c.peer, Scope(c));
    }
  }

  lemma ApproveSettled(s: Agent, id: RequestId, d: GrantDuration)
    requires NoneCovered(s.approvals)
    ensures NoneCovered(OnApprove(s, id, d).approvals)
  {
    hide NoneCovered, AuthorizedSignature, SettleGranted, ApproveQueued;
    if id !in s.held && id in s.pending {
      var sign := s.pending[id];
      var s0 := s.(pending := s.pending - {id});
      ApproveOnceKeeps(s0, id, sign.chan);
      var (s1, a) := ApproveQueued(s0, id, sign.chan, d);
      SettledAfterwards(Answer(s1, sign.chan, a, sign.message, sign.flags));
    }
  }

  lemma ApproveOnceKeeps(s: Agent, id: RequestId, chan: Chan)
    requires NoneCovered(s.approvals)
    ensures NoneCovered(ApproveQueued(s, id, chan, Once).0.approvals)
  {
    WithinKeeps(s.approvals, Approve(s.approvals, id, Once, Now(s)).0);
  }

  lemma DenySettled(s: Agent, id: RequestId)
    requires NoneCovered(s.approvals)
    ensures NoneCovered(OnDeny(s, id).approvals)
  {
    hide NoneCovered, ReleaseListing, Disconnect;
    DisconnectKeeps(s.approvals, id);
    var s1 := s.(approvals := Disconnect(s.approvals, id));
    var s2 := if id in s.pending then Reply(s1.(pending := s.pending - {id}), s.pending[id].chan, Failure) else s1;
    var s3 := if id in s.held then Reply(s2.(held := s.held - {id}), s.held[id].chan, Failure) else s2;
    ReleaseListingSends(s3, "cancelled");
  }

  lemma SettleLoadSettled(s: Agent)
    requires NoneCovered(s.approvals)
    ensures NoneCovered(SettleLoad(s).approvals)
  {
    hide NoneCovered, Sent, Refusals, FinishLoad, SettleGranted, ReleaseEach, CancelHeld, ReleaseListing;
    FinishLoadSends(s);
    var (s1, outcome) := FinishLoad(s);
    SettledAfterwards(ReleaseEach(s1.(held := map[]), s1.held, Ascending(s1.held.Keys)));
    ReleaseListingSends(ReleaseHeld(s1), "released");
    CancelSends(s1, "load-failed");
  }

  lemma TickSettled(s: Agent, closed: set<Chan>)
    requires NoneCovered(s.approvals)
    ensures NoneCovered(OnTick(s, closed).approvals)
  {
    hide NoneCovered, Expire, SettleLoad, WithdrawEach, DropEach, ReleaseListing, GrantIds;
    var now := Now(s);
    ExpireKeeps(s.approvals, now);
    var s1 := ReadClock(s).(approvals := Expire(s.approvals, now));
    if s1.load.Some? { SettleLoadSettled(s1.(load := Some(s1.load.value.(payload := Some(ReadFailed))))); }
    var s2 := ExpireLoad(s1, now);
    var ids := Ascending(ExpiredIds(s2, closed));
    WithdrawEachSends(s2, ids);
    var s3 := WithdrawEach(s2, ids);
    WithinKeeps(s2.approvals, s3.approvals);
    DropEachSends(s3, Ascending(StaleIds(s3, closed, now)));
    ReleaseListingSends(DropEach(s3, Ascending(StaleIds(s3, closed, now))), "withdrawn");
  }

  lemma ExpireKeeps(m: Manager, now: nat)
    requires NoneCovered(m)
    ensures NoneCovered(Expire(m, now))
  {
    WithinKeeps(m, Expire(m, now));
  }

  lemma LoadEndSettled(s: Agent, epoch: nat, ok: bool)
    requires NoneCovered(s.approvals)
    ensures NoneCovered(OnLoadEnd(s, epoch, ok).approvals)
  {
    hide NoneCovered, SettleLoad, CancelHeld, ReleaseListing;
    if s.load.Some? {
      var deadline := SatAdd(Now(s), LOAD_END_GRACE_MS);
      SettleLoadSettled(ReadClock(s).(load := Some(s.load.value.(ended := true, deadline := Some(deadline)))));
      CancelSends(s.(load := None, store := Lock(s.store, epoch), gateOpen := false), "load-failed");
    }
  }

  lemma NothingLeft(m: Manager)
    ensures NoneCovered(InvalidateAll(m)) && NoneCovered(RevokeAllGrants(m))
  {
  }

  lemma RevokeKeeps(m: Manager, id: GrantId)
    requires NoneCovered(m)
    ensures NoneCovered(RevokeGrant(m, id))
  {
    WithinKeeps(m, RevokeGrant(m, id));
  }

  lemma DeactivateSettled(s: Agent, store: Store, reason: string)
    ensures NoneCovered(Deactivate(s, store, reason).approvals)
  {
    hide NoneCovered, FailPending, CancelHeld, ReleaseListing;
    NothingLeft(s.approvals);
    DrainSends(s.(gateOpen := false, load := None, store := store, approvals := InvalidateAll(s.approvals)), reason);
  }

  lemma FinishSettled(s: Agent)
    ensures NoneCovered(Finish(s).approvals)
  {
    hide NoneCovered, FailPending, CancelHeld, ReleaseListing;
    NothingLeft(s.approvals);
    DrainSends(s.(approvals := InvalidateAll(s.approvals), load := None), "shutdown");
  }

  lemma LoadBeginSettled(s: Agent, epoch: nat, loadId: seq<byte>)
    requires NoneCovered(s.approvals)
    ensures NoneCovered(OnLoadBegin(s, epoch, loadId).approvals)
  {
    hide NoneCovered, FailPending;
    NothingLeft(s.approvals);
    FailPendingSends(s.(gateOpen := false, approvals := InvalidateAll(s.approvals)));
  }

  lemma ControlSettled(s: Agent, c: Control)
    requires NoneCovered(s.approvals)
    ensures NoneCovered(OnControl(s, c).approvals)
  {
    hide NoneCovered, Deactivate, OnApprove, OnDeny, Finish, OnLoadBegin, OnLoadEnd, RevokeAllGrants, RevokeGrant;
    var s1 := Note(s, Told(c));
    match c
    case Hello =>
    case Options(_) =>
    case VaultLocked(epoch) => DeactivateSettled(s1, Lock(s.store, epoch), "locked");
    case VaultLoggedOut => DeactivateSettled(s1, Logout(s.store, SatAdd(s.store.tracker.epoch, 1)), "logged-out");
    case ApproveRequest(id, d) => ApproveSettled(s1, id, d);
    case Deny(id) => DenySettled(s1, id);
    case UnlockCancelled(id) => DenySettled(s1, id);
    case RevokeGrants => NothingLeft(s.approvals);
    case RevokeOne(g) => RevokeKeeps(s.approvals, g);
    case Shutdown => FinishSettled(s1);
    case KeyLoadBegin(epoch, loadId) => LoadBeginSettled(s1, epoch, loadId);
    case KeyLoadEnd(epoch, ok) => LoadEndSettled(s1, epoch, ok);
  }

  lemma StepSettled(s: Agent, e: Event)
    requires NoneCovered(s.approvals)
    ensures NoneCovered(Step(s, e).approvals)
  {
    hide NoneCovered, OnControl, Finish, HandleClient, OnTick, SettleLoad;
    match e
    case FromPanel(c) => ControlSettled(s, c);
    case PanelClosed => FinishSettled(Note(s, Told(Shutdown)));
    case PanelGarbled =>
    case FromClient(c) => ClientSettled(s, c);
    case FromFifo(epoch, payload) =>
      if s.load.Some? { SettleLoadSettled(s.(load := Some(s.load.value.(payload := Some(payload))))); }
    case Tick(closed) => TickSettled(s, closed);
  }

  /** At every event boundary of every run, `hello` or not: no queued request is covered by
      a grant the manager holds, so none that a grant would answer is left to the panel. */
  lemma GrantsLeaveNoneWaiting(uid: nat, clock: nat -> nat, events: seq<Event>)
    ensures var m := Run(Init(uid, clock), events).approvals;
            forall r, g | r in m.queue && g in m.grants :: !GrantCovers(g, r.epoch, r.blob, r.peer, r.scope)
  {
    AlwaysSettled(uid, clock, events);
    var m := Run(Init(uid, clock), events).approvals;
    forall r, g | r in m.queue && g in m.grants ensures !GrantCovers(g, r.epoch, r.blob, r.peer, r.scope) {
      assert !RequestCovered(m.grants, r);
    }
  }

  lemma {:induction false} AlwaysSettled(uid: nat, clock: nat -> nat, events: seq<Event>)
    ensures NoneCovered(Run(Init(uid, clock), events).approvals)
  {
    hide Step;
    if events != [] {
      AlwaysSettled(uid, clock, events[..|events| - 1]);
      StepSettled(Run(Init(uid, clock), events[..|events| - 1]), events[|events| - 1]);
    }
  }
}
