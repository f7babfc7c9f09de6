/** What finished runs may leave in the vault helper's store, under every interleaving of
    starts, finishes and forgets. */
module VaultRunsModel {
  import opened Base
  import opened RedactionModel
  import opened VaultStoreModel

  /** The thread that waits for a run; every run has its own. */
  type Thread = nat

  datatype Capture = Plain | Session | Vault | VaultMerge | Secret(name: string) | Pinentry(name: string)

  /** A finished run: its exit code, its text and what the text reads as. */
  datatype Output = Output(code: int, text: string, session: Option<string>, pin: Option<string>, vault: Option<Json>)

  /** What a run that may keep something keeps. */
  datatype Kept = Nothing | KeepSession(key: string) | KeepSecret(name: string, value: string)
                | KeepVault(vault: Json, replace: bool)

  function KeptOf(capture: Capture, o: Output): Kept {
    match capture
    case Plain => Nothing
    case Session => if o.code == 0 && o.session.Some? then KeepSession(o.session.value) else Nothing
    case Secret(name) => if o.text != "" then KeepSecret(name, o.text) else Nothing
    case Pinentry(name) =>
      if o.code == 0 && o.pin.Some? && o.pin.value != "" then KeepSecret(name, o.pin.value) else Nothing
    case Vault => if o.code == 0 && o.vault.Some? then KeepVault(o.vault.value, true) else Nothing
    case VaultMerge => if o.code == 0 && o.vault.Some? then KeepVault(o.vault.value, false) else Nothing
  }

  /** What each kind of run keeps: a session key from a run that ended well; the text of a
      secret unless it is empty; a pin typed into a dialogue that ended well, unless it is
      empty; a vault read that ended well, which replaces what is held or is added to it. */
  lemma KeptExactly(capture: Capture, o: Output, k: Kept)
    requires k != Nothing
    ensures KeptOf(capture, o) == k <==>
            match k
            case Nothing => false
            case KeepSession(key) => GivesSession(capture, o, key)
            case KeepSecret(name, value) => GivesSecret(capture, o, name, value)
            case KeepVault(vault, replace) => GivesVault(capture, o, vault, replace)
  {
  }

  predicate GivesSession(capture: Capture, o: Output, key: string) {
    capture == Session && o.code == 0 && o.session == Some(key)
  }

  predicate GivesSecret(capture: Capture, o: Output, name: string, value: string) {
    && value != ""
    && (|| (capture == Secret(name) && o.text == value)
        || (capture == Pinentry(name) && o.code == 0 && o.pin == Some(value)))
  }

  predicate GivesVault(capture: Capture, o: Output, vault: Json, replace: bool) {
    capture == (if replace then Vault else VaultMerge) && o.code == 0 && o.vault == Some(vault)
  }

  /** `keep`, under the store's lock: a run from another generation changes nothing. */
  method Keep(store: VaultStore, generation: nat, capture: Capture, o: Output)
      returns (session: bool, held: bool)
    requires store.Valid()
    modifies store
    ensures store.Valid() && store.generation == old(store.generation)
    ensures generation != old(store.generation) ==> !session && !held && unchanged(store)
    ensures generation == old(store.generation) ==>
              var k := KeptOf(capture, o);
              && session == k.KeepSession? && held == k.KeepSecret?
              && store.session == (if k.KeepSession? then Some(k.key) else old(store.session))
              && store.secrets == (if k.KeepSecret? then old(store.secrets)[k.name := k.value] else old(store.secrets))
              && store.items == (if k.KeepVault? && k.vault.Obj?
                                 then PutAll(if k.replace then [] else old(store.items),
                                             ReadAll(store.text, k.vault.fields))
                                 else old(store.items))
  {
    session, held := false, false;
    if store.generation != generation {
      return;
    }
    var k := KeptOf(capture, o);
    match k
    case Nothing =>
    case KeepSession(key) =>
      store.session := Some(key);
      session := true;
    case KeepSecret(name, value) =>
      store.secrets := store.secrets[name := value];
      held := true;
    case KeepVault(vault, replace) =>
      var _ := store.StripVault(vault, replace);
  }

  // ---- what a read brings ----

  /** The last item read under each id. */
  function Reads(more: seq<Held>): map<string, Held> {
    if more == [] then map[] else Reads(more[..|more| - 1])[more[|more| - 1].id := more[|more| - 1]]
  }

  lemma {:induction false} ReadsLast(more: seq<Held>, id: string, otherwise: Option<Held>)
    ensures LastOf(more, id, otherwise) == if id in Reads(more) then Some(Reads(more)[id]) else otherwise
  {
    if more != [] { ReadsLast(more[..|more| - 1], id, otherwise); }
  }

  /** The items a run that kept `k` brought. */
  function ItemsOf(t: Text, k: Kept): map<string, Held> {
    if k.KeepVault? && k.vault.Obj? then Reads(ReadAll(t, k.vault.fields)) else map[]
  }

  // ---- interleavings ----

  /** Where a held value comes from: the steps at which its run began and finished, and how
      many forgets there had been when it began and when the value was stored. */
  datatype Stamp = Stamp(begun: nat, finished: nat, born: nat, stored: nat)

  datatype Stamped<T> = Stamped(value: T, stamp: Stamp)

  datatype Run = Run(generation: nat, begun: nat, born: nat, capture: Capture)

  /** `time` is the number of steps so far and `forgets` the history of keep lists; the
      helper itself only counts forgets. */
  datatype Helper = Helper(time: nat, generation: nat, forgets: seq<set<string>>, session: Option<Stamped<string>>,
                           secrets: map<string, Stamped<string>>, items: map<string, Stamped<Held>>,
                           running: map<Thread, Run>)

  const Start := Helper(0, 0, [], None, map[], map[], map[])

  datatype Step = Begin(id: Thread, capture: Capture)
                | Finish(id: Thread, output: Output)
                | Forget(keep: set<string>)
                | HoldSession(name: string)
                | ForgetSecret(name: string)
                | ForgetItem(itemId: string)

  function StampAll(read: map<string, Held>, stamp: Stamp): map<string, Stamped<Held>> {
    map id | id in read :: Stamped(read[id], stamp)
  }

  function Stored(t: Text, h: Helper, k: Kept, stamp: Stamp): Helper {
    match k
    case Nothing => h
    case KeepSession(key) => h.(session := Some(Stamped(key, stamp)))
    case KeepSecret(name, value) => h.(secrets := h.secrets[name := Stamped(value, stamp)])
    case KeepVault(vault, replace) =>
      if !vault.Obj? then h
      else
        var read := StampAll(ItemsOf(t, k), stamp);
        h.(items := if replace then read else h.items + read)
  }

  function Act(t: Text, h: Helper, s: Step): Helper {
    match s
    case Begin(id, capture) =>
      if id in h.running then h
      else h.(running := h.running[id := Run(h.generation, h.time, |h.forgets|, capture)])
    case Finish(id, o) =>
      if id !in h.running then h
      else
        var r := h.running[id];
        var h := h.(running := h.running - {id});
        if h.generation != r.generation then h
        else Stored(t, h, KeptOf(r.capture, o), Stamp(r.begun, h.time, r.born, |h.forgets|))
    case Forget(keep) =>
      Helper(h.time, (h.generation + 1) % TWO64, h.forgets + [keep], None,
             map name | name in h.secrets && name in keep :: h.secrets[name], map[], h.running)
    case HoldSession(name) =>
      if h.session.None? then h
      else
        var copy := h.session.value.(stamp := h.session.value.stamp.(stored := |h.forgets|));
        h.(secrets := h.secrets[name := copy])
    case ForgetSecret(name) => h.(secrets := h.secrets - {name})
    case ForgetItem(id) => h.(items := h.items - {id})
  }

  function Next(t: Text, h: Helper, s: Step): Helper {
    Act(t, h, s).(time := h.time + 1)
  }

  function Play(t: Text, h: Helper, steps: seq<Step>): Helper {
    if steps == [] then h else Next(t, Play(t, h, steps[..|steps| - 1]), steps[|steps| - 1])
  }

  /** The counter cannot tell these apart. */
  predicate SameCount(a: nat, b: nat) {
    a <= b && (b - a) % TWO64 == 0
  }

  /** Stored while the counter said its run was current, and named in every keep list since. */
  predicate Survived(forgets: seq<set<string>>, name: string, s: Stamp) {
    && SameCount(s.born, s.stored) && s.stored <= |forgets|
    && forall i | s.stored <= i < |forgets| :: name in forgets[i]
  }

  predicate Current(forgets: seq<set<string>>, s: Stamp) {
    s.stored == |forgets| && SameCount(s.born, |forgets|)
  }

  ghost predicate Sound(h: Helper) {
    && h.generation == |h.forgets| % TWO64
    && (forall id | id in h.running ::
          h.running[id].born <= |h.forgets| && h.running[id].generation == h.running[id].born % TWO64)
    && (h.session.Some? ==> Current(h.forgets, h.session.value.stamp))
    && (forall id | id in h.items :: Current(h.forgets, h.items[id].stamp))
    && (forall name | name in h.secrets :: Survived(h.forgets, name, h.secrets[name].stamp))
  }

  lemma CountsAgree(a: nat, b: nat)
    requires a <= b
    ensures a % TWO64 == b % TWO64 <==> SameCount(a, b)
  {
    var x, y := a / TWO64, b / TWO64;
    assert a == x * TWO64 + a % TWO64 && b == y * TWO64 + b % TWO64;
    if a % TWO64 == b % TWO64 {
      assert b - a == (y - x) * TWO64;
      MultipleMod(y - x);
    }
    if SameCount(a, b) {
      var z := (b - a) / TWO64;
      assert b == a + z * TWO64;
      AddMultiple(a, z);
    }
  }

  lemma MultipleMod(n: int)
    ensures n * TWO64 % TWO64 == 0
  {
  }

  lemma AddMultiple(a: nat, z: nat)
    ensures (a + z * TWO64) % TWO64 == a % TWO64
  {
  }

  lemma CountUp(n: nat)
    ensures (n % TWO64 + 1) % TWO64 == (n + 1) % TWO64
  {
  }

  lemma SmallCount(a: nat, b: nat)
    requires SameCount(a, b) && b < TWO64
    ensures a == b
  {
  }

  lemma ForgetSound(t: Text, h: Helper, keep: set<string>)
    requires Sound(h)
    ensures Sound(Next(t, h, Forget(keep)))
  {
    var h' := Next(t, h, Forget(keep));
    CountUp(|h.forgets|);
    forall name | name in h'.secrets ensures Survived(h'.forgets, name, h'.secrets[name].stamp) {
      assert Survived(h.forgets, name, h.secrets[name].stamp);
    }
  }

  lemma FinishSound(t: Text, h: Helper, id: Thread, o: Output)
    requires Sound(h)
    ensures Sound(Next(t, h, Finish(id, o)))
  {
    hide KeptOf, ItemsOf;
    if id in h.running {
      CountsAgree(h.running[id].born, |h.forgets|);
    }
  }

  lemma NextSound(t: Text, h: Helper, s: Step)
    requires Sound(h)
    ensures Sound(Next(t, h, s))
  {
    match s
    case Forget(keep) => ForgetSound(t, h, keep);
    case Finish(id, o) => FinishSound(t, h, id, o);
    case HoldSession(_) =>
    case Begin(_, _) =>
    case ForgetSecret(_) =>
    case ForgetItem(_) =>
  }

  /** Under every interleaving, with no bound on its length: the held session and items come
      from runs the counter cannot tell from current ones, and a held secret did when it was
      stored and was named in the keep list of every forget since. */
  lemma {:induction false} AlwaysSound(t: Text, steps: seq<Step>)
    ensures Sound(Play(t, Start, steps))
  {
    hide Next;
    if steps != [] {
      AlwaysSound(t, steps[..|steps| - 1]);
      NextSound(t, Play(t, Start, steps[..|steps| - 1]), steps[|steps| - 1]);
    }
  }

  // ---- which run each value came from ----

  function ForgetCount(steps: seq<Step>): nat {
    if steps == [] then 0 else ForgetCount(steps[..|steps| - 1]) + if steps[|steps| - 1].Forget? then 1 else 0
  }

  /** What the run between these two steps kept. */
  function Outcome(steps: seq<Step>, s: Stamp): Kept {
    if s.begun < s.finished < |steps| && steps[s.begun].Begin? && steps[s.finished].Finish?
       && steps[s.begun].id == steps[s.finished].id
    then KeptOf(steps[s.begun].capture, steps[s.finished].output) else Nothing
  }

  /** The run began with so many forgets behind it. */
  predicate BornAt(steps: seq<Step>, begun: nat, born: nat) {
    begun < |steps| && ForgetCount(steps[..begun]) == born
  }

  ghost predicate FromRun(steps: seq<Step>, s: Stamp, k: Kept) {
    BornAt(steps, s.begun, s.born) && Outcome(steps, s) == k
  }

  ghost predicate ItemFromRun(t: Text, steps: seq<Step>, s: Stamp, id: string, item: Held) {
    && BornAt(steps, s.begun, s.born)
    && var read := ItemsOf(t, Outcome(steps, s));
       id in read && read[id] == item
  }

  /** A secret is what a run kept under its name, or the session key a run kept. */
  ghost predicate SecretFromRun(steps: seq<Step>, s: Stamp, name: string, value: string) {
    FromRun(steps, s, KeepSecret(name, value)) || FromRun(steps, s, KeepSession(value))
  }

  predicate RunBegan(steps: seq<Step>, id: Thread, r: Run) {
    BornAt(steps, r.begun, r.born) && steps[r.begun] == Begin(id, r.capture)
  }

  /** The keep lists are those of the forgets among the steps. */
  ghost predicate ListsOf(steps: seq<Step>, forgets: seq<set<string>>) {
    && |forgets| == ForgetCount(steps)
    && forall k | 0 <= k < |steps| && steps[k].Forget? ::
         ForgetCount(steps[..k]) < |forgets| && forgets[ForgetCount(steps[..k])] == steps[k].keep
  }

  ghost predicate Traced(t: Text, steps: seq<Step>, h: Helper) {
    && h.time == |steps| && ListsOf(steps, h.forgets)
    && (forall id | id in h.running :: RunBegan(steps, id, h.running[id]))
    && (h.session.Some? ==> FromRun(steps, h.session.value.stamp, KeepSession(h.session.value.value)))
    && (forall name | name in h.secrets :: SecretFromRun(steps, h.secrets[name].stamp, name, h.secrets[name].value))
    && (forall id | id in h.items :: ItemFromRun(t, steps, h.items[id].stamp, id, h.items[id].value))
  }

  /** One more step leaves what was there as it was. */
  lemma StampsStay(steps: seq<Step>, e: Step, s: Stamp)
    requires BornAt(steps, s.begun, s.born)
    ensures BornAt(steps + [e], s.begun, s.born)
    ensures Outcome(steps, s) != Nothing ==> Outcome(steps + [e], s) == Outcome(steps, s)
  {
    hide KeptOf;
    assert (steps + [e])[..s.begun] == steps[..s.begun];
  }

  lemma RunsStay(steps: seq<Step>, e: Step, id: Thread, r: Run)
    requires RunBegan(steps, id, r)
    ensures RunBegan(steps + [e], id, r)
  {
    assert (steps + [e])[..r.begun] == steps[..r.begun];
  }

  lemma ListsGrow(steps: seq<Step>, e: Step, forgets: seq<set<string>>)
    requires ListsOf(steps, forgets)
    ensures ListsOf(steps + [e], if e.Forget? then forgets + [e.keep] else forgets)
  {
    var steps' := steps + [e];
    assert steps'[..|steps|] == steps;
    forall k | 0 <= k < |steps| ensures steps'[..k] == steps[..k] && steps'[k] == steps[k] {}
  }

  lemma TablesStay(t: Text, steps: seq<Step>, e: Step, h: Helper)
    requires Traced(t, steps, h)
    ensures Traced(t, steps + [e], h.(time := h.time + 1,
                                      forgets := if e.Forget? then h.forgets + [e.keep] else h.forgets))
  {
    hide Outcome, BornAt, RunBegan, ListsOf, ItemsOf;
    ListsGrow(steps, e, h.forgets);
    forall id | id in h.running ensures RunBegan(steps + [e], id, h.running[id]) {
      RunsStay(steps, e, id, h.running[id]);
    }
    if h.session.Some? { StampsStay(steps, e, h.session.value.stamp); }
    forall name | name in h.secrets
      ensures SecretFromRun(steps + [e], h.secrets[name].stamp, name, h.secrets[name].value)
    {
      StampsStay(steps, e, h.secrets[name].stamp);
    }
    forall id | id in h.items ensures ItemFromRun(t, steps + [e], h.items[id].stamp, id, h.items[id].value) {
      StampsStay(steps, e, h.items[id].stamp);
      assert ItemsOf(t, Nothing) == map[] by { NothingBrings(t); }
    }
  }

  lemma NothingBrings(t: Text)
    ensures ItemsOf(t, Nothing) == map[]
  {
  }

  /** The run that finishes now kept exactly what its two steps say. */
  lemma FinishTraced(t: Text, steps: seq<Step>, h: Helper, id: Thread, o: Output)
    requires Traced(t, steps, h) && id in h.running
    ensures var r := h.running[id];
            FromRun(steps + [Finish(id, o)], Stamp(r.begun, h.time, r.born, |h.forgets|), KeptOf(r.capture, o))
  {
    hide KeptOf, ListsOf;
    var r := h.running[id];
    assert RunBegan(steps, id, r);
    RunsStay(steps, Finish(id, o), id, r);
  }

  /** Storing what a run kept, under a stamp that says so. */
  lemma StoredTraced(t: Text, steps: seq<Step>, h: Helper, k: Kept, stamp: Stamp)
    requires Traced(t, steps, h) && FromRun(steps, stamp, k)
    ensures Traced(t, steps, Stored(t, h, k, stamp))
  {
    hide Outcome, BornAt, RunBegan, ListsOf, ItemsOf;
  }

  lemma NextTraced(t: Text, steps: seq<Step>, h: Helper, e: Step)
    requires Traced(t, steps, h)
    ensures Traced(t, steps + [e], Next(t, h, e))
  {
    hide Outcome, BornAt, RunBegan, ListsOf, ItemsOf, KeptOf, Stored;
    TablesStay(t, steps, e, h);
    match e
    case Begin(id, capture) => BeginTraced(t, steps, h, id, capture);
    case Finish(id, o) =>
      if id in h.running {
        var r := h.running[id];
        var h1 := h.(running := h.running - {id});
        var stamp := Stamp(r.begun, h.time, r.born, |h.forgets|);
        FinishTraced(t, steps, h, id, o);
        StoredTraced(t, steps + [e], h1.(time := h.time + 1), KeptOf(r.capture, o), stamp);
        StoredTimed(t, h1, KeptOf(r.capture, o), stamp, h.time + 1);
      }
    case HoldSession(name) =>
      if h.session.Some? {
        var v := h.session.value;
        StoredApart(steps + [e], v.stamp, |h.forgets|, KeepSession(v.value));
      }
    case Forget(_) =>
    case ForgetSecret(_) =>
    case ForgetItem(_) =>
  }

  lemma StoredTimed(t: Text, h: Helper, k: Kept, stamp: Stamp, time: nat)
    ensures Stored(t, h.(time := time), k, stamp) == Stored(t, h, k, stamp).(time := time)
  {
    hide ItemsOf;
  }

  lemma StoredApart(steps: seq<Step>, s: Stamp, stored: nat, k: Kept)
    ensures FromRun(steps, s.(stored := stored), k) == FromRun(steps, s, k)
  {
    hide KeptOf;
  }

  lemma BeginTraced(t: Text, steps: seq<Step>, h: Helper, id: Thread, capture: Capture)
    requires Traced(t, steps, h)
    ensures RunBegan(steps + [Begin(id, capture)], id, Run(h.generation, h.time, |h.forgets|, capture))
  {
    assert (steps + [Begin(id, capture)])[..|steps|] == steps;
  }

  lemma {:induction false} AlwaysTraced(t: Text, steps: seq<Step>)
    ensures Traced(t, steps, Play(t, Start, steps))
  {
    hide Next;
    if steps != [] {
      var front, e := steps[..|steps| - 1], steps[|steps| - 1];
      AlwaysTraced(t, front);
      NextTraced(t, front, Play(t, Start, front), e);
      assert steps == front + [e];
    }
  }

  // ---- the current generation ----

  lemma {:induction false} CountGrows(steps: seq<Step>, i: nat)
    requires i <= |steps|
    ensures ForgetCount(steps[..i]) <= ForgetCount(steps)
  {
    if i < |steps| {
      CountGrows(steps[..|steps| - 1], i);
      assert steps[..|steps| - 1][..i] == steps[..i];
    } else {
      assert steps[..i] == steps;
    }
  }

  /** A forget counts for everything after it. */
  lemma ForgetIsCounted(steps: seq<Step>, i: nat, k: nat)
    requires i <= k < |steps| && steps[k].Forget?
    ensures ForgetCount(steps[..i]) <= ForgetCount(steps[..k]) < ForgetCount(steps)
  {
    CountGrows(steps[..k], i);
    assert steps[..k][..i] == steps[..i];
    CountGrows(steps, k + 1);
    assert steps[..k + 1][..k] == steps[..k];
  }

  ghost predicate NoForgetSince(steps: seq<Step>, begun: nat) {
    forall k | begun <= k < |steps| :: !steps[k].Forget?
  }

  ghost predicate NamedSince(steps: seq<Step>, begun: nat, name: string) {
    forall k | begun <= k < |steps| && steps[k].Forget? :: name in steps[k].keep
  }

  lemma BornNow(steps: seq<Step>, s: Stamp)
    requires BornAt(steps, s.begun, s.born) && s.born == ForgetCount(steps)
    ensures NoForgetSince(steps, s.begun)
  {
    forall k | s.begun <= k < |steps| ensures !steps[k].Forget? {
      if steps[k].Forget? { ForgetIsCounted(steps, s.begun, k); }
    }
  }

  lemma StillNamed(steps: seq<Step>, forgets: seq<set<string>>, name: string, s: Stamp)
    requires ListsOf(steps, forgets) && BornAt(steps, s.begun, s.born)
    requires Survived(forgets, name, s) && |forgets| < TWO64
    ensures NamedSince(steps, s.begun, name)
  {
    hide SameCount;
    SmallCount(s.born, s.stored);
    forall k | s.begun <= k < |steps| && steps[k].Forget? ensures name in steps[k].keep {
      ForgetIsCounted(steps, s.begun, k);
      assert name in forgets[ForgetCount(steps[..k])];
    }
  }

  /** With fewer than 2^64 forgets: the session and every item held are what a run kept that
      began after the last forget, and a secret is what a run kept since whose beginning
      every forget named it. */
  lemma FromTheCurrentGeneration(t: Text, steps: seq<Step>)
    requires ForgetCount(steps) < TWO64
    ensures var h := Play(t, Start, steps);
            && (h.session.Some? ==>
                  && FromRun(steps, h.session.value.stamp, KeepSession(h.session.value.value))
                  && NoForgetSince(steps, h.session.value.stamp.begun))
            && (forall id | id in h.items ::
                  && ItemFromRun(t, steps, h.items[id].stamp, id, h.items[id].value)
                  && NoForgetSince(steps, h.items[id].stamp.begun))
            && (forall name | name in h.secrets ::
                  && SecretFromRun(steps, h.secrets[name].stamp, name, h.secrets[name].value)
                  && NamedSince(steps, h.secrets[name].stamp.begun, name))
  {
    AlwaysSound(t, steps);
    AlwaysTraced(t, steps);
    var h := Play(t, Start, steps);
    hide SameCount, Play, Outcome, ItemsOf, BornAt, NoForgetSince, NamedSince, ListsOf, ForgetCount;
    ListsCounted(steps, h.forgets);
    if h.session.Some? { NowIs(steps, h.forgets, h.session.value.stamp); }
    forall id | id in h.items ensures NoForgetSince(steps, h.items[id].stamp.begun) {
      NowIs(steps, h.forgets, h.items[id].stamp);
    }
    forall name | name in h.secrets ensures NamedSince(steps, h.secrets[name].stamp.begun, name) {
      StillNamed(steps, h.forgets, name, h.secrets[name].stamp);
    }
  }

  lemma ListsCounted(steps: seq<Step>, forgets: seq<set<string>>)
    requires ListsOf(steps, forgets)
    ensures |forgets| == ForgetCount(steps)
  {
  }

  lemma NowIs(steps: seq<Step>, forgets: seq<set<string>>, s: Stamp)
    requires ListsOf(steps, forgets) && BornAt(steps, s.begun, s.born) && Current(forgets, s) && |forgets| < TWO64
    ensures NoForgetSince(steps, s.begun)
  {
    SmallCount(s.born, |forgets|);
    BornNow(steps, s);
  }

  /** The helper holds what the run brought, under this stamp. */
  predicate Brought(t: Text, h: Helper, k: Kept, id: string, stamp: Stamp) {
    match k
    case Nothing => false
    case KeepSession(key) => h.session == Some(Stamped(key, stamp))
    case KeepSecret(name, value) => name in h.secrets && h.secrets[name] == Stamped(value, stamp)
    case KeepVault(_, _) =>
      id in h.items && id in ItemsOf(t, k) && h.items[id] == Stamped(ItemsOf(t, k)[id], stamp)
  }

  /** A run that has something to keep (a session, a secret, an item of a vault read) leaves
      it exactly when the number of forgets since it started is a multiple of 2^64: none, or
      a wrapped counter. Otherwise it leaves nothing at all. */
  lemma KeepsExactlyWhen(t: Text, steps: seq<Step>, thread: Thread, o: Output, id: string)
    requires thread in Play(t, Start, steps).running
    requires var k := KeptOf(Play(t, Start, steps).running[thread].capture, o);
             k != Nothing && (k.KeepVault? ==> id in ItemsOf(t, k))
    ensures var h := Play(t, Start, steps);
            var r := h.running[thread];
            var h' := Next(t, h, Finish(thread, o));
            var stamp := Stamp(r.begun, h.time, r.born, |h.forgets|);
            && (Brought(t, h', KeptOf(r.capture, o), id, stamp) <==> SameCount(r.born, |h.forgets|))
            && (!SameCount(r.born, |h.forgets|) ==>
                  h' == h.(time := h.time + 1, running := h.running - {thread}))
  {
    AlwaysSound(t, steps);
    var h := Play(t, Start, steps);
    hide KeptOf, Play, SameCount, ItemsOf;
    CountsAgree(h.running[thread].born, |h.forgets|);
    var k := KeptOf(h.running[thread].capture, o);
    if k.KeepVault? { BringsFromObjects(t, k, id); }
  }

  lemma BringsFromObjects(t: Text, k: Kept, id: string)
    requires k.KeepVault? && id in ItemsOf(t, k)
    ensures k.vault.Obj?
  {
  }

  // ---- the bound is needed ----

  function Forgets(n: nat): seq<Step> {
    seq(n, _ => Forget({}))
  }

  lemma {:induction false} PlayOn(t: Text, h: Helper, xs: seq<Step>, ys: seq<Step>)
    ensures Play(t, h, xs + ys) == Play(t, Play(t, h, xs), ys)
  {
    hide Next;
    if ys == [] {
      assert xs + ys == xs;
    } else {
      PlayOn(t, h, xs, ys[..|ys| - 1]);
      assert (xs + ys)[..|xs + ys| - 1] == xs + ys[..|ys| - 1];
    }
  }

  lemma ForgetCounts(t: Text, h: Helper)
    ensures var h' := Next(t, h, Forget({}));
            && |h'.forgets| == |h.forgets| + 1 && h'.running == h.running && h'.time == h.time + 1
            && h'.generation == (h.generation + 1) % TWO64
  {
  }

  lemma {:induction false} ForgetsCount(t: Text, h: Helper, n: nat)
    requires h.generation == |h.forgets| % TWO64
    ensures var h' := Play(t, h, Forgets(n));
            && |h'.forgets| == |h.forgets| + n && h'.running == h.running && h'.time == h.time + n
            && h'.generation == |h'.forgets| % TWO64
  {
    if n > 0 {
      hide Next;
      ForgetsCount(t, h, n - 1);
      assert Forgets(n)[..n - 1] == Forgets(n - 1);
      CountUp(|h.forgets| + n - 1);
      ForgetCounts(t, Play(t, h, Forgets(n - 1)));
    }
  }

  lemma PlayOne(t: Text, h: Helper, s: Step)
    ensures Play(t, h, [s]) == Next(t, h, s)
  {
    hide Next;
    assert [s][..0] == [];
    assert Play(t, h, []) == h;
  }

  /** After 2^64 forgets a run from before all of them is taken for a current one. */
  lemma WrapLetsAStaleRunIn(t: Text, key: string)
    ensures var o := Output(0, key, Some(key), None, None);
            var h := Play(t, Start, [Begin(0, Session)] + Forgets(TWO64) + [Finish(0, o)]);
            h.session == Some(Stamped(key, Stamp(0, TWO64 + 1, 0, TWO64))) && |h.forgets| == TWO64
  {
    hide Play;
    var o := Output(0, key, Some(key), None, None);
    var h1 := Next(t, Start, Begin(0, Session));
    PlayOne(t, Start, Begin(0, Session));
    PlayOn(t, Start, [Begin(0, Session)], Forgets(TWO64));
    ForgetsCount(t, h1, TWO64);
    var h2 := Play(t, h1, Forgets(TWO64));
    PlayOn(t, Start, [Begin(0, Session)] + Forgets(TWO64), [Finish(0, o)]);
    PlayOne(t, h2, Finish(0, o));
  }
}
