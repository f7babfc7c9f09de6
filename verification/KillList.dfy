/** The vault helper's list of running process groups: spawned, listed, taken off the list
    before they are reaped, and signalled only through the list. */
module KillListModel {
  import opened Base

  const MAX_RUNS: nat := 32

  type RunId = nat
  type Pid = nat

  /** Where a child is in its life. */
  datatype Stage = Spawned | Listed | Unlisted | Reaped

  datatype Child = Child(id: RunId, pid: Pid, stage: Stage)

  /** A SIGKILL scheduled for a listed run; `child` is the one it was meant for. */
  datatype Delayed = Delayed(id: RunId, group: Pid, child: nat)

  /** `children` are all there ever were, in spawn order; `runs` is the list itself. */
  datatype State = State(children: seq<Child>, runs: map<RunId, Pid>, delayed: seq<Delayed>)

  const Start := State([], map[], [])

  /** The main thread runs `Spawn`, `Insert`, `Kill` and `SignalAll`, in its own order;
      everything else happens whenever it happens. */
  datatype Step = Spawn(id: RunId, pid: Pid) | Insert(child: nat)
                | Unlist(child: nat) | Reap(child: nat)
                | Kill(id: RunId) | Fire(which: nat) | SignalAll

  /** The operating system hands out no pid that an unreaped child holds. */
  predicate FreePid(children: seq<Child>, pid: Pid) {
    forall k | 0 <= k < |children| :: children[k].pid == pid ==> children[k].stage == Reaped
  }

  /** The main thread is between spawning a child and listing it. */
  predicate Spawning(children: seq<Child>) {
    exists k :: 0 <= k < |children| && children[k].stage == Spawned
  }

  predicate At(s: State, k: nat, stage: Stage) {
    k < |s.children| && s.children[k].stage == stage
  }

  function Moved(s: State, k: nat, stage: Stage): State
    requires k < |s.children|
  {
    s.(children := s.children[k := s.children[k].(stage := stage)])
  }

  /** Which child a listed id belongs to. */
  function Owner(children: seq<Child>, id: RunId): (k: nat)
    ensures k <= |children|
    ensures k < |children| ==> children[k].id == id && children[k].stage == Listed
    ensures k == |children| ==> forall i | 0 <= i < |children| :: !(children[i].id == id && children[i].stage == Listed)
  {
    if children == [] then 0
    else if children[0].id == id && children[0].stage == Listed then 0
    else 1 + Owner(children[1..], id)
  }

  function Next(s: State, step: Step): State {
    match step
    case Spawn(id, pid) =>
      if Spawning(s.children) || |s.runs| >= MAX_RUNS || id in s.runs || !FreePid(s.children, pid) then s
      else s.(children := s.children + [Child(id, pid, Spawned)])
    case Insert(k) =>
      if !At(s, k, Spawned) then s
      else Moved(s, k, Listed).(runs := s.runs[s.children[k].id := s.children[k].pid])
    case Unlist(k) =>
      if !At(s, k, Listed) then s else Moved(s, k, Unlisted).(runs := s.runs - {s.children[k].id})
    case Reap(k) => if !At(s, k, Unlisted) then s else Moved(s, k, Reaped)
    case Kill(id) =>
      if Spawning(s.children) || id !in s.runs then s
      else s.(delayed := s.delayed + [Delayed(id, s.runs[id], Owner(s.children, id))])
    case Fire(_) => s
    case SignalAll => s
  }

  /** The groups a step signals. */
  function Signalled(s: State, step: Step): set<Pid> {
    match step
    case Kill(id) => if !Spawning(s.children) && id in s.runs then {s.runs[id]} else {}
    case Fire(n) =>
      if n < |s.delayed| && s.delayed[n].id in s.runs && s.runs[s.delayed[n].id] == s.delayed[n].group
      then {s.delayed[n].group} else {}
    case SignalAll => if Spawning(s.children) then {} else s.runs.Values
    case _ => {}
  }

  function Play(steps: seq<Step>): State {
    if steps == [] then Start else Next(Play(steps[..|steps| - 1]), steps[|steps| - 1])
  }

  // ---- the invariant ----

  /** The list names exactly the listed children. */
  ghost predicate ListExact(children: seq<Child>, runs: map<RunId, Pid>) {
    && (forall k | 0 <= k < |children| && children[k].stage == Listed ::
          children[k].id in runs && runs[children[k].id] == children[k].pid)
    && (forall id | id in runs :: IsListed(children, id))
  }

  predicate IsListed(children: seq<Child>, id: RunId) {
    exists k :: 0 <= k < |children| && children[k].id == id && children[k].stage == Listed
  }

  predicate Alive(c: Child) {
    c.stage == Spawned || c.stage == Listed
  }

  /** Live children have ids of their own, and unreaped ones pids of their own. */
  ghost predicate Apart(children: seq<Child>) {
    forall i, j | 0 <= i < j < |children| ::
      && (Alive(children[i]) && Alive(children[j]) ==> children[i].id != children[j].id)
      && (children[i].stage != Reaped && children[j].stage != Reaped ==> children[i].pid != children[j].pid)
      && !(children[i].stage == Spawned && children[j].stage == Spawned)
  }

  /** Room is kept for the child being spawned, whose id is not listed. */
  ghost predicate Room(s: State) {
    && |s.runs| + (if Spawning(s.children) then 1 else 0) <= MAX_RUNS
    && (forall k | 0 <= k < |s.children| && s.children[k].stage == Spawned :: s.children[k].id !in s.runs)
  }

  /** A scheduled kill remembers the run it was for. */
  ghost predicate DelayedOk(s: State) {
    forall n | 0 <= n < |s.delayed| ::
      var d := s.delayed[n];
      && d.child < |s.children| && s.children[d.child].id == d.id && s.children[d.child].pid == d.group
      && s.children[d.child].stage != Spawned
  }

  ghost predicate Inv(s: State) {
    ListExact(s.children, s.runs) && Apart(s.children) && Room(s) && DelayedOk(s)
  }

  /** Listed children that are still listed keep their ids on the list. */
  lemma StillListed(a: seq<Child>, b: seq<Child>, runs: map<RunId, Pid>)
    requires forall id | id in runs :: IsListed(a, id)
    requires |a| <= |b| && forall k | 0 <= k < |a| && a[k].stage == Listed && a[k].id in runs :: b[k] == a[k]
    ensures forall id | id in runs :: IsListed(b, id)
  {
    forall id | id in runs ensures IsListed(b, id) {
      var k :| 0 <= k < |a| && a[k].id == id && a[k].stage == Listed;
      assert b[k].id == id;
    }
  }

  lemma SpawnedApart(children: seq<Child>, c: Child)
    requires Apart(children) && !Spawning(children) && FreePid(children, c.pid)
    requires forall k | 0 <= k < |children| && children[k].stage == Listed :: children[k].id != c.id
    ensures Apart(children + [c])
  {
  }

  lemma SpawnedDelayed(s: State, c: Child)
    requires DelayedOk(s)
    ensures DelayedOk(s.(children := s.children + [c]))
  {
  }

  lemma SpawnedRoom(s: State, c: Child)
    requires Room(s) && !Spawning(s.children) && |s.runs| < MAX_RUNS && c.id !in s.runs
    ensures Room(s.(children := s.children + [c]))
  {
  }

  lemma SpawnKeeps(s: State, id: RunId, pid: Pid)
    requires Inv(s)
    ensures Inv(Next(s, Spawn(id, pid)))
  {
    var s' := Next(s, Spawn(id, pid));
    if s' != s {
      var c := Child(id, pid, Spawned);
      SpawnedApart(s.children, c);
      SpawnedDelayed(s, c);
      SpawnedRoom(s, c);
      hide Apart, FreePid, DelayedOk, Room, Spawning;
      StillListed(s.children, s'.children, s.runs);
    }
  }

  /** Nothing else changes when one child moves on. */
  lemma MovedKeepsApart(s: State, k: nat, stage: Stage)
    requires Apart(s.children) && k < |s.children| && stage != Spawned
    requires s.children[k].stage != Reaped && (stage == Listed ==> s.children[k].stage == Spawned)
    ensures Apart(Moved(s, k, stage).children)
  {
    var c := Moved(s, k, stage).children;
    assert forall i | 0 <= i < |c| :: c[i].id == s.children[i].id && c[i].pid == s.children[i].pid;
    assert forall i | 0 <= i < |c| && i != k :: c[i] == s.children[i];
  }

  lemma InsertKeeps(s: State, k: nat)
    requires Inv(s) && At(s, k, Spawned)
    ensures Inv(Next(s, Insert(k)))
  {
    var s' := Next(s, Insert(k));
    MovedKeepsApart(s, k, Listed);
    assert forall i | 0 <= i < |s.children| && i != k :: s'.children[i] == s.children[i];
    forall x | x in s'.runs ensures IsListed(s'.children, x) {
      if x == s.children[k].id {
        assert s'.children[k].id == x;
      } else {
        var i :| 0 <= i < |s.children| && s.children[i].id == x && s.children[i].stage == Listed;
        assert s'.children[i].id == x;
      }
    }
    assert !Spawning(s'.children) by {
      forall i | 0 <= i < |s'.children| ensures s'.children[i].stage != Spawned {
        var x, y := if i < k then i else k, if i < k then k else i;
        assert x < y ==> !(s.children[x].stage == Spawned && s.children[y].stage == Spawned);
      }
    }
    assert Spawning(s.children);
  }

  lemma MovedDelayed(s: State, k: nat, stage: Stage)
    requires DelayedOk(s) && k < |s.children| && stage != Spawned
    ensures DelayedOk(Moved(s, k, stage))
  {
  }

  lemma MovedRoom(s: State, k: nat, stage: Stage, runs: map<RunId, Pid>)
    requires Room(s) && k < |s.children| && s.children[k].stage != Spawned && stage != Spawned
    requires |runs| <= |s.runs| && runs.Keys <= s.runs.Keys
    ensures Room(Moved(s, k, stage).(runs := runs))
  {
    SpawningSame(s.children, Moved(s, k, stage).children, k);
  }

  lemma UnlistedList(s: State, k: nat)
    requires ListExact(s.children, s.runs) && Apart(s.children) && At(s, k, Listed)
    ensures ListExact(Moved(s, k, Unlisted).children, s.runs - {s.children[k].id})
  {
    OnlyOneOfIt(s.children, k);
    hide Apart;
    StillListed(s.children, Moved(s, k, Unlisted).children, s.runs - {s.children[k].id});
  }

  lemma UnlistKeeps(s: State, k: nat)
    requires Inv(s) && At(s, k, Listed)
    ensures Inv(Next(s, Unlist(k)))
  {
    hide ListExact, Apart, Room, DelayedOk, Moved;
    var runs := s.runs - {s.children[k].id};
    UnlistedList(s, k);
    MovedKeepsApart(s, k, Unlisted);
    Fewer(s.runs, s.children[k].id);
    MovedRoom(s, k, Unlisted, runs);
    MovedDelayed(s, k, Unlisted);
    SameDelayed(Moved(s, k, Unlisted), runs);
  }

  /** The scheduled kills do not depend on the list. */
  lemma SameDelayed(s: State, runs: map<RunId, Pid>)
    requires DelayedOk(s)
    ensures DelayedOk(s.(runs := runs))
  {
  }

  lemma OnlyOneOfIt(children: seq<Child>, k: nat)
    requires Apart(children) && k < |children| && children[k].stage == Listed
    ensures forall i | 0 <= i < |children| && i != k && children[i].stage == Listed :: children[i].id != children[k].id
  {
    forall i | 0 <= i < |children| && i != k && children[i].stage == Listed ensures children[i].id != children[k].id {
      assert Alive(children[if i < k then i else k]) && Alive(children[if i < k then k else i]);
    }
  }

  lemma Fewer(m: map<RunId, Pid>, id: RunId)
    ensures |m - {id}| <= |m|
  {
    SubsetSize((m - {id}).Keys, m.Keys);
    assert |m.Keys| == |m| && |(m - {id}).Keys| == |m - {id}|;
  }

  lemma SpawningSame(a: seq<Child>, b: seq<Child>, k: nat)
    requires |a| == |b| && k < |a| && forall i | 0 <= i < |a| && i != k :: a[i] == b[i]
    requires a[k].stage != Spawned && b[k].stage != Spawned
    ensures Spawning(a) <==> Spawning(b)
  {
    if Spawning(a) {
      var i :| 0 <= i < |a| && a[i].stage == Spawned;
      assert b[i].stage == Spawned;
    }
  }

  lemma ReapedList(s: State, k: nat)
    requires ListExact(s.children, s.runs) && At(s, k, Unlisted)
    ensures ListExact(Moved(s, k, Reaped).children, s.runs)
  {
    StillListed(s.children, Moved(s, k, Reaped).children, s.runs);
  }

  lemma ReapKeeps(s: State, k: nat)
    requires Inv(s) && At(s, k, Unlisted)
    ensures Inv(Next(s, Reap(k)))
  {
    assert Moved(s, k, Reaped).(runs := s.runs) == Moved(s, k, Reaped);
    hide ListExact, Apart, Room, DelayedOk;
    ReapedList(s, k);
    MovedKeepsApart(s, k, Reaped);
    MovedRoom(s, k, Reaped, s.runs);
    MovedDelayed(s, k, Reaped);
  }

  lemma KillKeeps(s: State, id: RunId)
    requires Inv(s)
    ensures Inv(Next(s, Kill(id)))
  {
    var s' := Next(s, Kill(id));
    if s' != s {
      assert IsListed(s.children, id);
      var k := Owner(s.children, id);
      assert forall n | 0 <= n < |s.delayed| :: s'.delayed[n] == s.delayed[n];
    }
  }

  lemma NextKeeps(s: State, step: Step)
    requires Inv(s)
    ensures Inv(Next(s, step))
  {
    hide Inv, Moved, Spawning, FreePid, Owner;
    match step
    case Spawn(id, pid) => SpawnKeeps(s, id, pid);
    case Insert(k) => if At(s, k, Spawned) { InsertKeeps(s, k); }
    case Unlist(k) => if At(s, k, Listed) { UnlistKeeps(s, k); }
    case Reap(k) => if At(s, k, Unlisted) { ReapKeeps(s, k); }
    case Kill(id) => KillKeeps(s, id);
    case Fire(_) =>
    case SignalAll =>
  }

  lemma {:induction false} AlwaysInv(steps: seq<Step>)
    ensures Inv(Play(steps))
  {
    if steps != [] {
      hide Inv, Next;
      AlwaysInv(steps[..|steps| - 1]);
      NextKeeps(Play(steps[..|steps| - 1]), steps[|steps| - 1]);
    } else {
      StartInv();
    }
  }

  lemma StartInv()
    ensures Inv(Start)
  {
  }

  // ---- what is signalled ----

  /** The one unreaped process of this pid is a listed run. */
  predicate OurRun(s: State, pid: Pid, k: nat) {
    && k < |s.children| && s.children[k].pid == pid && s.children[k].stage == Listed
    && s.children[k].id in s.runs && s.runs[s.children[k].id] == pid
    && forall j | 0 <= j < |s.children| && s.children[j].pid == pid && j != k :: s.children[j].stage == Reaped
  }

  lemma ListedIsOurs(s: State, id: RunId) returns (k: nat)
    requires Inv(s) && id in s.runs
    ensures OurRun(s, s.runs[id], k) && s.children[k].id == id
  {
    assert IsListed(s.children, id);
    k := Owner(s.children, id);
    assert forall j | 0 <= j < k :: s.children[j].stage == Reaped || s.children[j].pid != s.children[k].pid;
    assert forall j | k < j < |s.children| :: s.children[j].stage == Reaped || s.children[k].pid != s.children[j].pid;
  }

  /** In every interleaving, every group ever signalled is at that moment the group of a
      listed child that has not been reaped, and of nobody else. */
  lemma SignalsOnlyItsOwn(steps: seq<Step>, step: Step, pid: Pid)
    requires pid in Signalled(Play(steps), step)
    ensures exists k :: OurRun(Play(steps), pid, k)
  {
    AlwaysInv(steps);
    var s := Play(steps);
    match step
    case Kill(id) => var k := ListedIsOurs(s, id);
    case Fire(n) => var k := ListedIsOurs(s, s.delayed[n].id);
    case SignalAll =>
      var id :| id in s.runs && s.runs[id] == pid;
      var k := ListedIsOurs(s, id);
  }

  predicate ListedAs(s: State, k: nat, id: RunId, pid: Pid) {
    k < |s.children| && s.children[k] == Child(id, pid, Listed)
  }

  /** ... and nobody is missed: unless a child is just being spawned, shutdown signals the
      group of every listed child, and `Kill(id)` that of the one listed under `id`. */
  lemma SignalsAllOfThem(steps: seq<Step>, pid: Pid)
    requires !Spawning(Play(steps).children)
    ensures var s := Play(steps);
            && (pid in Signalled(s, SignalAll) <==> exists k: nat, id :: ListedAs(s, k, id, pid))
            && forall id :: pid in Signalled(s, Kill(id)) <==> exists k: nat :: ListedAs(s, k, id, pid)
  {
    hide Spawning, Inv;
    AlwaysInv(steps);
    var s := Play(steps);
    forall id ensures id in s.runs && s.runs[id] == pid <==> exists k: nat :: ListedAs(s, k, id, pid) {
      ListedOnce(s, id, pid);
    }
    if pid in Signalled(s, SignalAll) {
      var id :| id in s.runs && s.runs[id] == pid;
      var k: nat :| ListedAs(s, k, id, pid);
    }
    if k: nat, id :| ListedAs(s, k, id, pid) {
      assert id in s.runs && s.runs[id] == pid;
    }
  }

  lemma ListedOnce(s: State, id: RunId, pid: Pid)
    requires Inv(s)
    ensures id in s.runs && s.runs[id] == pid <==> exists k: nat :: ListedAs(s, k, id, pid)
  {
    if id in s.runs {
      var k := ListedIsOurs(s, id);
      assert ListedAs(s, k, id, s.runs[id]);
    }
  }

  /** The kill a `Kill` schedules reaches its run for as long as that is listed. */
  lemma DelayedKillComes(steps: seq<Step>, n: nat)
    requires n < |Play(steps).delayed|
    ensures var s := Play(steps);
            var d := s.delayed[n];
            && d.child < |s.children|
            && (s.children[d.child].stage == Listed ==> Signalled(s, Fire(n)) == {s.children[d.child].pid})
  {
    AlwaysInv(steps);
  }

  /** `Kill` schedules one for exactly the run it signals. */
  lemma KillSchedules(steps: seq<Step>, id: RunId, k: nat)
    requires var s := Play(steps); !Spawning(s.children) && k < |s.children|
    requires Play(steps).children[k].stage == Listed && Play(steps).children[k].id == id
    ensures var s := Play(steps);
            Next(s, Kill(id)).delayed == s.delayed + [Delayed(id, s.children[k].pid, k)]
  {
    AlwaysInv(steps);
    var s := Play(steps);
    OnlyOneOfIt(s.children, k);
    assert Owner(s.children, id) == k;
  }

  /** Live ids are unique, and at most MAX_RUNS are listed. */
  lemma ListIsBounded(steps: seq<Step>)
    ensures var s := Play(steps);
            && |s.runs| <= MAX_RUNS
            && forall i, j | 0 <= i < j < |s.children| && Alive(s.children[i]) && Alive(s.children[j]) ::
                 s.children[i].id != s.children[j].id
  {
    AlwaysInv(steps);
  }

  /** A delayed SIGKILL reaches the run it was meant for exactly while that has not been
      reaped; after that, a later one that has taken over both its id and its pid. */
  lemma DelayedKillsItsRun(steps: seq<Step>, n: nat, k: nat)
    requires var s := Play(steps);
             n < |s.delayed| && s.delayed[n].group in Signalled(s, Fire(n)) && OurRun(s, s.delayed[n].group, k)
    ensures var s := Play(steps);
            && s.delayed[n].child < |s.children|
            && s.children[k].id == s.delayed[n].id
            && (k == s.delayed[n].child <==> s.children[s.delayed[n].child].stage != Reaped)
            && (k != s.delayed[n].child ==> s.delayed[n].child < k)
  {
    AlwaysInv(steps);
    var s := Play(steps);
    var d := s.delayed[n];
    var own := ListedIsOurs(s, d.id);
    assert own == k;
    if k < d.child {
      LaterHasIt(steps, k, d.child);
      assert false;
    }
  }

  /** Children keep their ids and pids, and a new one takes only a free pid. */
  lemma NextChildren(s: State, step: Step)
    ensures var c, c' := s.children, Next(s, step).children;
            && |c| <= |c'| <= |c| + 1
            && (forall i | 0 <= i < |c| :: c'[i].pid == c[i].pid && (c[i].stage == Reaped ==> c'[i] == c[i]))
            && (|c'| > |c| ==> FreePid(c, c'[|c|].pid) && forall i | 0 <= i < |c| :: c'[i] == c[i])
  {
    hide Spawning, Owner, FreePid;
  }

  /** A pid is taken over only from a reaped child. */
  lemma {:induction false} LaterHasIt(steps: seq<Step>, i: nat, j: nat)
    requires var s := Play(steps); i < j < |s.children| && s.children[i].pid == s.children[j].pid
    ensures Play(steps).children[i].stage == Reaped
  {
    hide Next;
    var front := steps[..|steps| - 1];
    var s := Play(front);
    NextChildren(s, steps[|steps| - 1]);
    if j < |s.children| {
      LaterHasIt(front, i, j);
    }
  }

  lemma PlayMore(steps: seq<Step>, step: Step)
    ensures Play(steps + [step]) == Next(Play(steps), step)
  {
    hide Next;
    assert (steps + [step])[..|steps|] == steps;
  }

  /** The takeover does happen: a kill is scheduled for the first child, which is reaped, and
      a second one gets its id and its pid before the kill fires. */
  lemma TakenOver(id: RunId, pid: Pid)
    ensures var first := [Spawn(id, pid)] + [Insert(0)] + [Kill(id)] + [Unlist(0)] + [Reap(0)];
            var s := Play(first + [Spawn(id, pid)] + [Insert(1)]);
            && s.delayed == [Delayed(id, pid, 0)] && Signalled(s, Fire(0)) == {pid}
            && OurRun(s, pid, 1) && s.children[0].stage == Reaped
  {
    var a, b := Child(id, pid, Spawned), Child(id, pid, Reaped);
    var s1 := State([a], map[], []);
    var s2 := State([a.(stage := Listed)], map[id := pid], []);
    var s3 := s2.(delayed := [Delayed(id, pid, 0)]);
    var s4 := State([a.(stage := Unlisted)], map[], s3.delayed);
    var s5 := State([b], map[], s3.delayed);
    var s6 := State([b, a], map[], s3.delayed);
    assert Next(Start, Spawn(id, pid)) == s1;
    assert Next(s1, Insert(0)) == s2 by { assert At(s1, 0, Spawned); }
    assert Next(s2, Kill(id)) == s3;
    assert Next(s3, Unlist(0)) == s4 by { assert s3.runs - {id} == map[]; }
    assert Next(s4, Reap(0)) == s5;
    assert Next(s5, Spawn(id, pid)) == s6;
    Steps7(Spawn(id, pid), Insert(0), Kill(id), Unlist(0), Reap(0), Spawn(id, pid), Insert(1));
  }

  lemma Steps7(a: Step, b: Step, c: Step, d: Step, e: Step, f: Step, g: Step)
    ensures Play([a] + [b] + [c] + [d] + [e] + [f] + [g]) ==
            Next(Next(Next(Next(Next(Next(Next(Start, a), b), c), d), e), f), g)
  {
    hide Next;
    assert [a] == [] + [a] && Play([]) == Start;
    PlayMore([], a);
    PlayMore([a], b);
    PlayMore([a] + [b], c);
    PlayMore([a] + [b] + [c], d);
    PlayMore([a] + [b] + [c] + [d], e);
    PlayMore([a] + [b] + [c] + [d] + [e], f);
    PlayMore([a] + [b] + [c] + [d] + [e] + [f], g);
  }
}
