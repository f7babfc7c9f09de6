/** Bounded signature requests, single-use approvals and process grants. */
module ApprovalModel {
  import opened Base
  import opened KeyStoreModel

  const MAX_PENDING: nat := 4
  const REQUEST_LIFETIME_MS: nat := 120_000
  const MAX_GRANT_SECONDS: nat := 900

  type RequestId = nat
  type GrantId = nat

  datatype Peer = Peer(uid: nat, pid: nat, startTicks: nat, executable: string)

  datatype SignKind = SshSig(namespace: seq<byte>) | UserAuth(user: seq<byte>, host: string) | Other

  datatype SignScope = SignScope(kind: SignKind, forwarded: bool)

  datatype GrantDuration = Once | Seconds(n: nat) | UntilScreenLock

  datatype Authorization = Authorization(epoch: nat, blob: Blob)

  datatype Request = Request(id: RequestId, epoch: nat, blob: Blob, peer: Peer, scope: SignScope, deadline: nat)

  datatype Grant = Grant(id: GrantId, blob: Blob, peer: Peer, kind: SignKind, epoch: nat, expires: Option<nat>)

  datatype Manager = Manager(uid: nat, nextId: RequestId, nextGrantId: GrantId,
                             queue: seq<Request>, grants: seq<Grant>)

  datatype Submitted = Queued(id: RequestId) | Granted(authorization: Authorization) | Rejected

  /** No requests and no grants but those of `m`. */
  predicate Within(m': Manager, m: Manager) {
    && (forall r | r in m'.queue :: r in m.queue)
    && (forall g | g in m'.grants :: g in m.grants)
  }

  function NewManager(uid: nat): Manager {
    Manager(uid, 1, 1, [], [])
  }

  predicate SharesGrantScope(a: Peer, b: Peer) {
    a.uid == b.uid && a.executable == b.executable
  }

  predicate Grantable(scope: SignScope) {
    !scope.forwarded && scope.kind != Other
  }

  predicate GrantCovers(grant: Grant, epoch: nat, blob: Blob, peer: Peer, scope: SignScope) {
    && Grantable(scope)
    && grant.epoch == epoch
    && grant.blob == blob
    && grant.kind == scope.kind
    && SharesGrantScope(grant.peer, peer)
  }

  predicate Covered(grants: seq<Grant>, epoch: nat, blob: Blob, peer: Peer, scope: SignScope) {
    exists i :: 0 <= i < |grants| && GrantCovers(grants[i], epoch, blob, peer, scope)
  }

  predicate RequestCovered(grants: seq<Grant>, r: Request) {
    Covered(grants, r.epoch, r.blob, r.peer, r.scope)
  }

  function LiveRequests(queue: seq<Request>, now: nat): seq<Request> {
    Keep(queue, (r: Request) => r.deadline > now)
  }

  predicate Unexpired(g: Grant, now: nat) {
    g.expires.None? || g.expires.value > now
  }

  function LiveGrants(grants: seq<Grant>, now: nat): seq<Grant> {
    Keep(grants, (g: Grant) => Unexpired(g, now))
  }

  function Expire(m: Manager, now: nat): Manager {
    m.(queue := LiveRequests(m.queue, now), grants := LiveGrants(m.grants, now))
  }

  function Submit(m: Manager, epoch: nat, blob: Blob, peer: Peer, scope: SignScope, now: nat): (Manager, Submitted) {
    if peer.uid != m.uid then (m, Rejected)
    else
      var m := Expire(m, now);
      if Covered(m.grants, epoch, blob, peer, scope) then (m, Granted(Authorization(epoch, blob)))
      else if |m.queue| >= MAX_PENDING || m.nextId >= U64_MAX then (m, Rejected)
      else
        var request := Request(m.nextId, epoch, blob, peer, scope, SatAdd(now, REQUEST_LIFETIME_MS));
        (m.(nextId := m.nextId + 1, queue := m.queue + [request]), Queued(m.nextId))
  }

  /** The position of the request with this id, or the queue's length. */
  function Position(queue: seq<Request>, id: RequestId): (at: nat)
    ensures at <= |queue|
    ensures at < |queue| ==> queue[at].id == id
    ensures forall i | 0 <= i < at :: queue[i].id != id
  {
    if queue == [] then 0 else if queue[0].id == id then 0 else 1 + Position(queue[1..], id)
  }

  predicate IsQueued(m: Manager, id: RequestId) {
    Position(m.queue, id) < |m.queue|
  }

  predicate OpensGrant(duration: GrantDuration, scope: SignScope) {
    duration != Once && duration != Seconds(0) && Grantable(scope)
  }

  function Expiry(duration: GrantDuration, now: nat): Option<nat> {
    match duration
    case Seconds(n) => Some(SatAdd(now, Min(n, MAX_GRANT_SECONDS) * 1000))
    case _ => None
  }

  function Approve(m: Manager, id: RequestId, duration: GrantDuration, now: nat): (Manager, Option<Authorization>) {
    var m := Expire(m, now);
    var at := Position(m.queue, id);
    if at == |m.queue| then (m, None)
    else
      var r := m.queue[at];
      var m := m.(queue := m.queue[..at] + m.queue[at + 1..]);
      var authorization := Authorization(r.epoch, r.blob);
      if !OpensGrant(duration, r.scope) then (m, Some(authorization))
      else if m.nextGrantId >= U64_MAX then (m, None)
      else
        var grant := Grant(m.nextGrantId, r.blob, r.peer, r.scope.kind, r.epoch, Expiry(duration, now));
        (m.(nextGrantId := m.nextGrantId + 1, grants := m.grants + [grant]), Some(authorization))
  }

  function Uncovered(queue: seq<Request>, grants: seq<Grant>): seq<Request> {
    Keep(queue, (r: Request) => !RequestCovered(grants, r))
  }

  /** The queued requests a grant covers, in queue order. Each is released with the
      authorization `Authorization(r.epoch, r.blob)`. */
  function CoveredRequests(queue: seq<Request>, grants: seq<Grant>): seq<Request> {
    Keep(queue, (r: Request) => RequestCovered(grants, r))
  }

  function ReleaseGranted(m: Manager, now: nat): (Manager, seq<Request>) {
    var m := Expire(m, now);
    (m.(queue := Uncovered(m.queue, m.grants)), CoveredRequests(m.queue, m.grants))
  }

  function WithoutId(queue: seq<Request>, id: RequestId): seq<Request> {
    Keep(queue, (r: Request) => r.id != id)
  }

  function Disconnect(m: Manager, id: RequestId): Manager {
    m.(queue := WithoutId(m.queue, id))
  }

  function InvalidateAll(m: Manager): Manager {
    m.(queue := [], grants := [])
  }

  function RevokeGrant(m: Manager, id: GrantId): Manager {
    m.(grants := Keep(m.grants, (g: Grant) => g.id != id))
  }

  function RevokeAllGrants(m: Manager): Manager {
    m.(grants := [])
  }

  function Reserve(m: Manager): (Manager, Option<RequestId>) {
    if m.nextId >= U64_MAX then (m, None) else (m.(nextId := m.nextId + 1), Some(m.nextId))
  }

  function CapacityRemaining(m: Manager, held: nat): nat {
    if |m.queue| + held >= MAX_PENDING then 0 else MAX_PENDING - (|m.queue| + held)
  }
}
