/** The vault helper as it runs: its store, and the threads that wait for a run. Each of its
    methods takes the step of the same name in the stamped history of `VaultRunsModel`, so
    what is proved of every interleaving there is true of the store here. */
module VaultHelperModel {
  import opened Base
  import R = RedactionModel
  import opened VaultStoreModel
  import opened VaultRunsModel

  /** What a waiting thread was given when its run started. */
  datatype Waiting = Waiting(generation: nat, capture: Capture)

  /** The values without their stamps. */
  function Values(secrets: map<string, Stamped<string>>): map<string, string> {
    map name | name in secrets :: secrets[name].value
  }

  function HeldAt(items: map<string, Stamped<Held>>, id: string): Option<Held> {
    if id in items then Some(items[id].value) else None
  }

  /** The store finds under every id the item the history has there. */
  ghost predicate SameItems(items: seq<Held>, history: map<string, Stamped<Held>>) {
    DistinctIds(items) && forall id :: Lookup(items, id) == HeldAt(history, id)
  }

  /** What keeping a vault read does to the items, in the store and in the history. */
  lemma ReadKept(t: Text, items: seq<Held>, history: map<string, Stamped<Held>>, k: Kept, stamp: Stamp)
    requires SameItems(items, history) && k.KeepVault? && k.vault.Obj?
    ensures var read := StampAll(ItemsOf(t, k), stamp);
            SameItems(PutAll(if k.replace then [] else items, ReadAll(t, k.vault.fields)),
                      if k.replace then read else history + read)
  {
    var more := ReadAll(t, k.vault.fields);
    var start := if k.replace then [] else items;
    hide PutAll, ReadAll;
    PutAllLooksUp(start, more, "");
    var read := StampAll(ItemsOf(t, k), stamp);
    forall id
      ensures Lookup(PutAll(start, more), id) == HeldAt(if k.replace then read else history + read, id)
    {
      PutAllLooksUp(start, more, id);
      ReadsLast(more, id, Lookup(start, id));
    }
  }

  lemma ItemDropped(items: seq<Held>, history: map<string, Stamped<Held>>, gone: string)
    requires SameItems(items, history)
    ensures SameItems(Take(items, gone), history - {gone})
  {
    hide Take;
    TakeLooksUp(items, gone, "");
    forall id ensures Lookup(Take(items, gone), id) == HeldAt(history - {gone}, id) {
      TakeLooksUp(items, gone, id);
    }
  }

  class VaultHelper {
    const store: VaultStore
    var running: map<Thread, Waiting>
    ghost var history: Helper

    /** The store holds exactly the session, secrets and items the history has. */
    ghost predicate Valid()
      reads this, store
    {
      && store.Valid()
      && store.generation == history.generation
      && store.session == (if history.session.Some? then Some(history.session.value.value) else None)
      && store.secrets == Values(history.secrets)
      && SameItems(store.items, history.items)
      && running.Keys == history.running.Keys
      && forall id | id in running ::
           running[id] == Waiting(history.running[id].generation, history.running[id].capture)
    }

    constructor (t: Text)
      ensures Valid() && fresh(store) && store.text == t && history == Start
    {
      store := new VaultStore(t);
      running := map[];
      history := Start;
    }

    /** Start a run; its thread takes the generation with it. */
    method BeginRun(id: Thread, capture: Capture)
      requires Valid()
      modifies this
      ensures Valid() && history == Next(store.text, old(history), Begin(id, capture))
    {
      history := Next(store.text, history, Begin(id, capture));
      if id !in running {
        running := running[id := Waiting(store.generation, capture)];
      }
    }

    /** A run has finished: its thread keeps what the generation lets it keep. */
    method FinishRun(id: Thread, o: Output) returns (session: bool, held: bool)
      requires Valid()
      modifies this, store
      ensures Valid() && history == Next(store.text, old(history), Finish(id, o))
      ensures session || held ==> id in old(running) && old(running)[id].generation == store.generation
    {
      hide KeptOf, PutAll, ReadAll, Indexed, SameItems, ItemsOf;
      if id !in running {
        history := Next(store.text, history, Finish(id, o));
        return false, false;
      }
      var r := running[id];
      ghost var k := KeptOf(r.capture, o);
      ghost var items := store.items;
      session, held := VaultRunsModel.Keep(store, r.generation, r.capture, o);
      running := running - {id};
      ghost var run := history.running[id];
      ghost var stamp := Stamp(run.begun, history.time, run.born, |history.forgets|);
      if k.KeepVault? && k.vault.Obj? {
        ReadKept(store.text, items, history.items, k, stamp);
      }
      history := Next(store.text, history, Finish(id, o));
    }

    method ForgetAll(keep: set<string>)
      requires Valid()
      modifies this, store
      ensures Valid() && history == Next(store.text, old(history), Forget(keep))
    {
      store.Forget(keep);
      history := Next(store.text, history, Forget(keep));
    }

    method CopySession(name: string)
      requires Valid()
      modifies this, store
      ensures Valid() && history == Next(store.text, old(history), HoldSession(name))
    {
      hide SameItems, Indexed;
      var _ := store.HoldSession(name);
      history := Next(store.text, history, HoldSession(name));
    }

    method DropSecret(name: string)
      requires Valid()
      modifies this, store
      ensures Valid() && history == Next(store.text, old(history), ForgetSecret(name))
    {
      hide SameItems, Indexed;
      store.ForgetSecret(name);
      history := Next(store.text, history, ForgetSecret(name));
    }

    method DropItem(id: string)
      requires Valid()
      modifies this, store
      ensures Valid() && history == Next(store.text, old(history), ForgetItem(id))
    {
      hide SameItems, Take, Indexed;
      ItemDropped(store.items, history.items, id);
      store.ForgetItem(id);
      history := Next(store.text, history, ForgetItem(id));
    }
  }

  /** The run between these two steps had this capture and this output. */
  predicate RanWith(steps: seq<Step>, begun: nat, finished: nat, capture: Capture, o: Output) {
    && begun < finished < |steps| && steps[begun].Begin? && steps[begun].capture == capture
    && steps[finished] == Finish(steps[begun].id, o)
  }

  /** A run that began after the last forget, for a session, ended well with this key. */
  ghost predicate CurrentSession(steps: seq<Step>, key: string) {
    exists begun: nat, finished: nat, capture, o ::
      && RanWith(steps, begun, finished, capture, o) && GivesSession(capture, o, key)
      && NoForgetSince(steps, begun)
  }

  /** A run that began after the last forget, for the vault, ended well and read this item:
      the last object with its id. */
  ghost predicate CurrentItem(t: Text, steps: seq<Step>, item: Held) {
    exists begun: nat, finished: nat, capture, o ::
      && RanWith(steps, begun, finished, capture, o) && GivesItem(t, capture, o, item)
      && NoForgetSince(steps, begun)
  }

  ghost predicate GivesItem(t: Text, capture: Capture, o: Output, item: Held) {
    && (capture == Vault || capture == VaultMerge) && o.code == 0 && o.vault.Some? && o.vault.value.Obj?
    && var read := Elements(o.vault.value.fields, "items") + Elements(o.vault.value.fields, "sshKeys");
       exists at: nat :: IsLast(read, item.id, at) && read[at] == R.Obj(item.full)
  }

  /** A run gave this secret, or the session key it is a copy of, and every forget since it
      began named it. */
  ghost predicate CurrentSecret(steps: seq<Step>, name: string, value: string) {
    exists begun: nat, finished: nat, capture, o ::
      && RanWith(steps, begun, finished, capture, o)
      && (GivesSecret(capture, o, name, value) || GivesSession(capture, o, value))
      && NamedSince(steps, begun, name)
  }

  /** A run that kept something ran, with the output it kept it from. */
  lemma KeptRan(steps: seq<Step>, s: Stamp)
    requires Outcome(steps, s) != Nothing
    ensures s.begun < s.finished < |steps| && steps[s.begun].Begin? && steps[s.finished].Finish?
    ensures var capture, o := steps[s.begun].capture, steps[s.finished].output;
            RanWith(steps, s.begun, s.finished, capture, o) && Outcome(steps, s) == KeptOf(capture, o)
  {
    hide KeptOf;
  }

  lemma SessionRan(steps: seq<Step>, s: Stamp, key: string)
    requires FromRun(steps, s, KeepSession(key)) && NoForgetSince(steps, s.begun)
    ensures CurrentSession(steps, key)
  {
    hide KeptOf, NoForgetSince, BornAt, Outcome;
    KeptRan(steps, s);
    KeptExactly(steps[s.begun].capture, steps[s.finished].output, KeepSession(key));
  }

  lemma SecretRan(steps: seq<Step>, s: Stamp, name: string, value: string)
    requires SecretFromRun(steps, s, name, value) && NamedSince(steps, s.begun, name)
    ensures CurrentSecret(steps, name, value)
  {
    hide KeptOf, NamedSince, BornAt, Outcome;
    KeptRan(steps, s);
    KeptExactly(steps[s.begun].capture, steps[s.finished].output, KeepSecret(name, value));
    KeptExactly(steps[s.begun].capture, steps[s.finished].output, KeepSession(value));
  }

  lemma ItemRan(t: Text, steps: seq<Step>, s: Stamp, item: Held)
    requires ItemFromRun(t, steps, s, item.id, item) && NoForgetSince(steps, s.begun)
    ensures CurrentItem(t, steps, item)
  {
    hide KeptOf, NoForgetSince, BornAt, Outcome, ItemsOf, GivesItem;
    var k := Outcome(steps, s);
    BroughtByVault(t, k, item.id);
    KeptRan(steps, s);
    var capture, o := steps[s.begun].capture, steps[s.finished].output;
    KeptExactly(capture, o, k);
    ItemIsLast(t, capture, o, k, item);
  }

  lemma BroughtByVault(t: Text, k: Kept, id: string)
    requires id in ItemsOf(t, k)
    ensures k.KeepVault? && k.vault.Obj?
  {
  }

  lemma ItemIsLast(t: Text, capture: Capture, o: Output, k: Kept, item: Held)
    requires k.KeepVault? && k.vault.Obj? && GivesVault(capture, o, k.vault, k.replace)
    requires item.id in ItemsOf(t, k) && ItemsOf(t, k)[item.id] == item
    ensures GivesItem(t, capture, o, item)
  {
    hide HeldOf;
    var more := ReadAll(t, k.vault.fields);
    var read := Elements(k.vault.fields, "items") + Elements(k.vault.fields, "sshKeys");
    HeldAllOn(t, Elements(k.vault.fields, "items"), Elements(k.vault.fields, "sshKeys"));
    ReadsLast(more, item.id, None);
    var at := LastWithId(t, read, item.id, item);
    assert IsLast(read, item.id, at) && read[at] == R.Obj(item.full);
  }

  /** What is found under an id is the last object of the read with it. */
  lemma LastWithId(t: Text, read: seq<R.Json>, id: string, item: Held) returns (at: nat)
    requires LastOf(HeldAll(t, read), id, None) == Some(item)
    ensures IsLast(read, id, at) && read[at] == R.Obj(item.full)
  {
    hide HeldAll, LastOf;
    if i: nat :| i < |read| && HasId(read[i], id) {
      at := LastOne(read, id);
      LastHeld(t, read, id, at, None);
      HeldWhole(t, read[at].fields);
    } else {
      NoneHeld(t, read, id, None);
      assert false;
    }
  }

  lemma HeldWhole(t: Text, item: R.Item)
    ensures HeldOf(t, item).Some? ==> HeldOf(t, item).value.full == item
  {
  }

  lemma {:induction false} LastOne(read: seq<R.Json>, id: string) returns (at: nat)
    requires exists i: nat :: i < |read| && HasId(read[i], id)
    ensures IsLast(read, id, at)
  {
    at := |read| - 1;
    if !HasId(read[at], id) {
      var front := read[..at];
      var i: nat :| i < |read| && HasId(read[i], id);
      assert HasId(front[i], id);
      at := LastOne(front, id);
      assert forall j | 0 <= j < |front| :: front[j] == read[j];
    }
  }

  /** The values in the store of a helper that has taken these steps, with fewer than 2^64
      forgets among them, are all current. */
  lemma StoreIsCurrent(helper: VaultHelper, steps: seq<Step>)
    requires helper.Valid() && helper.history == Play(helper.store.text, Start, steps)
    requires ForgetCount(steps) < TWO64
    ensures var store := helper.store;
            && (store.session.Some? ==> CurrentSession(steps, store.session.value))
            && (forall i | 0 <= i < |store.items| :: CurrentItem(store.text, steps, store.items[i]))
            && (forall name | name in store.secrets :: CurrentSecret(steps, name, store.secrets[name]))
  {
    var store := helper.store;
    FromTheCurrentGeneration(store.text, steps);
    var h := helper.history;
    hide FromRun, ItemFromRun, SecretFromRun, NoForgetSince, NamedSince, Play, CurrentItem, CurrentSession,
         CurrentSecret;
    forall i | 0 <= i < |store.items| ensures CurrentItem(store.text, steps, store.items[i]) {
      var id := store.items[i].id;
      PositionIs(store.items, id, i);
      assert Lookup(store.items, id) == HeldAt(h.items, id);
      ItemRan(store.text, steps, h.items[id].stamp, store.items[i]);
    }
    forall name | name in store.secrets ensures CurrentSecret(steps, name, store.secrets[name]) {
      SecretRan(steps, h.secrets[name].stamp, name, store.secrets[name]);
    }
    if store.session.Some? { SessionRan(steps, h.session.value.stamp, store.session.value); }
  }
}
