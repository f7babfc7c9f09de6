/** The approval manager as the object the agent owns, proved against `ApprovalModel`. */
module ApprovalObject {
  import opened Base
  import opened KeyStoreModel
  import opened ApprovalModel

  class ApprovalManager {
    const uid: nat
    var nextId: RequestId
    var nextGrantId: GrantId
    var queue: seq<Request>
    var grants: seq<Grant>

    function View(): Manager
      reads this
    {
      Manager(uid, nextId, nextGrantId, queue, grants)
    }

    constructor (expectedUid: nat)
      ensures View() == NewManager(expectedUid)
    {
      uid, nextId, nextGrantId, queue, grants := expectedUid, 1, 1, [], [];
    }

    method Expire(now: nat)
      modifies this
      ensures View() == ApprovalModel.Expire(old(View()), now)
    {
      queue := LiveRequests(queue, now);
      grants := LiveGrants(grants, now);
    }

    /** A covering grant answers at once; otherwise queue, if there is room and an id left. */
    method Submit(epoch: nat, blob: Blob, peer: Peer, scope: SignScope, now: nat) returns (r: Submitted)
      modifies this
      ensures (View(), r) == ApprovalModel.Submit(old(View()), epoch, blob, peer, scope, now)
      ensures r.Granted? ==> exists g :: g in grants && Unexpired(g, now) && GrantCovers(g, epoch, blob, peer, scope)
    {
      if peer.uid != uid {
        return Rejected;
      }
      Expire(now);
      for i := 0 to |grants|
        invariant forall k :: 0 <= k < i ==> !GrantCovers(grants[k], epoch, blob, peer, scope)
      {
        if GrantCovers(grants[i], epoch, blob, peer, scope) {
          assert grants[i] in grants;
          return Granted(Authorization(epoch, blob));
        }
      }
      if |queue| >= MAX_PENDING {
        return Rejected;
      }
      var id := nextId;
      if id >= U64_MAX {
        return Rejected;
      }
      nextId := id + 1;
      queue := queue + [Request(id, epoch, blob, peer, scope, SatAdd(now, REQUEST_LIFETIME_MS))];
      return Queued(id);
    }

    /** The position of the request, or the queue's length. */
    method Find(id: RequestId) returns (at: nat)
      ensures at == Position(queue, id)
    {
      at := 0;
      while at < |queue| && queue[at].id != id
        invariant at <= |queue| && forall k :: 0 <= k < at ==> queue[k].id != id
      {
        at := at + 1;
      }
    }

    /** Single use: the request leaves the queue whatever comes of it. */
    method Approve(id: RequestId, duration: GrantDuration, now: nat) returns (r: Option<Authorization>)
      modifies this
      ensures (View(), r) == ApprovalModel.Approve(old(View()), id, duration, now)
      ensures r.Some? ==> exists q :: q in old(queue) && q.id == id && q.deadline > now
                                      && r.value == Authorization(q.epoch, q.blob)
    {
      Expire(now);
      var at := Find(id);
      if at == |queue| {
        return None;
      }
      var request := queue[at];
      assert request in queue;
      queue := queue[..at] + queue[at + 1..];
      if duration != Once && duration != Seconds(0) && Grantable(request.scope) {
        var grantId := nextGrantId;
        if grantId >= U64_MAX {
          return None;
        }
        nextGrantId := grantId + 1;
        var expires := Expiry(duration, now);
        grants := grants + [Grant(grantId, request.blob, request.peer, request.scope.kind, request.epoch, expires)];
      }
      return Some(Authorization(request.epoch, request.blob));
    }

    /** Take what a grant now covers out of the queue. */
    method ReleaseGranted(now: nat) returns (released: seq<Request>)
      modifies this
      ensures (View(), released) == ApprovalModel.ReleaseGranted(old(View()), now)
      ensures forall r | r in released :: RequestCovered(grants, r)
      ensures forall r | r in queue :: !RequestCovered(grants, r)
    {
      Expire(now);
      released := [];
      var kept := [];
      for i := 0 to |queue|
        invariant kept == Uncovered(queue[..i], grants)
        invariant released == CoveredRequests(queue[..i], grants)
      {
        assert queue[..i + 1][..i] == queue[..i];
        if RequestCovered(grants, queue[i]) {
          released := released + [queue[i]];
        } else {
          kept := kept + [queue[i]];
        }
      }
      assert queue[..|queue|] == queue;
      queue := kept;
    }

    method Disconnect(id: RequestId)
      modifies this
      ensures View() == ApprovalModel.Disconnect(old(View()), id)
    {
      queue := WithoutId(queue, id);
    }

    method InvalidateAll()
      modifies this
      ensures View() == ApprovalModel.InvalidateAll(old(View()))
    {
      queue, grants := [], [];
    }

    method RevokeGrant(id: GrantId)
      modifies this
      ensures View() == ApprovalModel.RevokeGrant(old(View()), id)
      ensures forall g | g in grants :: g.id != id
    {
      grants := ApprovalModel.RevokeGrant(View(), id).grants;
    }

    method RevokeAllGrants()
      modifies this
      ensures View() == ApprovalModel.RevokeAllGrants(old(View()))
    {
      grants := [];
    }

    method Reserve() returns (id: Option<RequestId>)
      modifies this
      ensures (View(), id) == ApprovalModel.Reserve(old(View()))
    {
      if nextId >= U64_MAX {
        return None;
      }
      id := Some(nextId);
      nextId := nextId + 1;
    }
  }
}
