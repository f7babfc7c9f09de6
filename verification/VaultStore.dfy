/** The vault helper's store: held items behind an id index, which together are an
    insertion-ordered map. */
module VaultStoreModel {
  import opened Base
  import opened RedactionModel

  /** An item as it was read, with what search looks at. */
  datatype Held = Held(id: string, full: Item, haystack: string, digits: string)

  // ---- the insertion-ordered map ----

  /** The position of the item with this id, or the number of items. */
  function Position(items: seq<Held>, id: string): (at: nat)
    ensures at <= |items|
    ensures at < |items| ==> items[at].id == id
    ensures forall i | 0 <= i < at :: items[i].id != id
  {
    if items == [] then 0 else if items[0].id == id then 0 else 1 + Position(items[1..], id)
  }

  function Lookup(items: seq<Held>, id: string): Option<Held> {
    var at := Position(items, id);
    if at < |items| then Some(items[at]) else None
  }

  /** Replace in place, or append. */
  function Put(items: seq<Held>, h: Held): seq<Held> {
    var at := Position(items, h.id);
    if at < |items| then items[at := h] else items + [h]
  }

  function Take(items: seq<Held>, id: string): seq<Held> {
    var at := Position(items, id);
    if at < |items| then Without(items, at) else items
  }

  function PutAll(items: seq<Held>, more: seq<Held>): seq<Held> {
    if more == [] then items else Put(PutAll(items, more[..|more| - 1]), more[|more| - 1])
  }

  ghost predicate DistinctIds(items: seq<Held>) {
    forall i, j | 0 <= i < j < |items| :: items[i].id != items[j].id
  }

  lemma PositionIs(items: seq<Held>, id: string, at: nat)
    requires DistinctIds(items) && at < |items| && items[at].id == id
    ensures Position(items, id) == at
  {
    var k := Position(items, id);
    assert forall i | 0 <= i < at :: items[i].id != items[at].id;
  }

  lemma PositionNone(items: seq<Held>, id: string)
    requires forall i | 0 <= i < |items| :: items[i].id != id
    ensures Position(items, id) == |items|
  {
  }

  /** Putting an item changes what its own id finds, and the order only by appending. */
  lemma PutLooksUp(items: seq<Held>, h: Held, id: string)
    requires DistinctIds(items)
    ensures DistinctIds(Put(items, h))
    ensures Lookup(Put(items, h), id) == if id == h.id then Some(h) else Lookup(items, id)
  {
    var items' := Put(items, h);
    var at := Position(items, h.id);
    assert forall i | 0 <= i < |items| && i != at :: items'[i] == items[i];
    assert items'[at] == h;
    forall i | 0 <= i < |items| && i != at ensures items[i].id != h.id {
      if at < i { assert items[at].id != items[i].id; }
    }
    PositionIs(items', h.id, at);
    if id != h.id {
      var k := Position(items, id);
      if k < |items| { PositionIs(items', id, k); } else { PositionNone(items', id); }
    }
  }

  /** Taking an item out leaves every other where lookup finds it. */
  lemma TakeLooksUp(items: seq<Held>, gone: string, id: string)
    requires DistinctIds(items)
    ensures DistinctIds(Take(items, gone))
    ensures Lookup(Take(items, gone), id) == if id == gone then None else Lookup(items, id)
  {
    hide Without;
    var at := Position(items, gone);
    if at < |items| {
      var rest := Without(items, at);
      if id == gone {
        forall i | 0 <= i < |rest| ensures rest[i].id != gone {
          if i >= at { assert items[at].id != items[i + 1].id; }
        }
        PositionNone(rest, id);
      } else {
        var k := Position(items, id);
        if k < |items| {
          PositionIs(rest, id, if k < at then k else k - 1);
        } else {
          PositionNone(rest, id);
        }
      }
    }
  }

  /** After a whole read, an id finds the last item read under it. */
  lemma {:induction false} PutAllLooksUp(items: seq<Held>, more: seq<Held>, id: string)
    requires DistinctIds(items)
    ensures DistinctIds(PutAll(items, more))
    ensures Lookup(PutAll(items, more), id) == LastOf(more, id, Lookup(items, id))
  {
    if more != [] {
      PutAllLooksUp(items, more[..|more| - 1], id);
      PutLooksUp(PutAll(items, more[..|more| - 1]), more[|more| - 1], id);
    }
  }

  function LastOf(more: seq<Held>, id: string, otherwise: Option<Held>): Option<Held> {
    if more == [] then otherwise
    else if more[|more| - 1].id == id then Some(more[|more| - 1])
    else LastOf(more[..|more| - 1], id, otherwise)
  }

  // ---- the index ----

  /** The index and the items name each other. */
  ghost predicate Indexed(items: seq<Held>, index: map<string, nat>) {
    && (forall i | 0 <= i < |items| :: items[i].id in index && index[items[i].id] == i)
    && (forall id | id in index :: index[id] < |items| && items[index[id]].id == id)
  }

  lemma IndexIsPosition(items: seq<Held>, index: map<string, nat>, id: string)
    requires Indexed(items, index)
    ensures DistinctIds(items)
    ensures Position(items, id) == if id in index then index[id] else |items|
    ensures id in index ==> index[id] < |items|
  {
    if id in index { PositionIs(items, id, index[id]); }
  }

  /** Part way through moving the index: right up to `position`, one too far behind it. */
  ghost predicate PartlyIndexed(items: seq<Held>, index: map<string, nat>, keys: set<string>, position: nat) {
    && index.Keys == keys
    && (forall i | 0 <= i < |items| :: items[i].id in index && index[items[i].id] == if i < position then i else i + 1)
    && (forall id | id in keys :: exists i :: 0 <= i < |items| && items[i].id == id)
  }

  lemma RemoveStarts(items: seq<Held>, index: map<string, nat>, id: string)
    requires Indexed(items, index) && id in index
    ensures var rest := Without(items, index[id]);
            PartlyIndexed(rest, index - {id}, index.Keys - {id}, index[id]) && DistinctIds(rest)
  {
    hide Without;
    var at := index[id];
    var rest := Without(items, at);
    forall key | key in index.Keys - {id} ensures exists i :: 0 <= i < |rest| && rest[i].id == key {
      var k := index[key];
      assert rest[if k < at then k else k - 1].id == key;
    }
  }

  lemma ReindexStep(items: seq<Held>, index: map<string, nat>, keys: set<string>, position: nat)
    requires PartlyIndexed(items, index, keys, position) && DistinctIds(items) && position < |items|
    ensures PartlyIndexed(items, index[items[position].id := position], keys, position + 1)
  {
    forall i | 0 <= i < |items| && i != position ensures items[i].id != items[position].id {
      assert items[if i < position then i else position].id != items[if i < position then position else i].id;
    }
  }

  lemma ReindexEnds(items: seq<Held>, index: map<string, nat>, keys: set<string>)
    requires PartlyIndexed(items, index, keys, |items|)
    ensures Indexed(items, index)
  {
  }

  // ---- search ----

  predicate ContainsAt(text: string, part: string, at: nat) {
    at + |part| <= |text| && text[at..at + |part|] == part
  }

  predicate Contains(text: string, part: string) {
    exists at :: 0 <= at <= |text| && ContainsAt(text, part, at)
  }

  predicate IsDigit(c: char) {
    '0' <= c <= '9'
  }

  function Digits(text: string): string {
    Keep(text, IsDigit)
  }

  predicate Matches(h: Held, needle: string, digits: string) {
    || Contains(h.haystack, needle)
    || (digits != "" && |h.digits| >= 4 && Contains(h.digits[|h.digits| - 4..], digits))
  }

  function Ids(items: seq<Held>): seq<string> {
    seq(|items|, i requires 0 <= i < |items| => items[i].id)
  }

  /** The items a folded query finds, in load order. */
  function Found(items: seq<Held>, needle: string): seq<Held> {
    Keep(items, (h: Held) => needle == "" || Matches(h, needle, Digits(needle)))
  }

  lemma {:induction false} FoundAll(items: seq<Held>)
    ensures Found(items, "") == items
  {
    if items != [] {
      FoundAll(items[..|items| - 1]);
      assert items == items[..|items| - 1] + [items[|items| - 1]];
    }
  }

  /** The text has this part somewhere. */
  ghost predicate PartOf(part: string, text: string) {
    exists before, after :: text == before + part + after
  }

  lemma ContainsExact(text: string, part: string)
    ensures Contains(text, part) <==> PartOf(part, text)
  {
    if Contains(text, part) {
      var at :| 0 <= at <= |text| && ContainsAt(text, part, at);
      assert text == text[..at] + part + text[at + |part|..];
    }
    if PartOf(part, text) {
      var before, after :| text == before + part + after;
      assert text[|before|..|before| + |part|] == part;
      assert ContainsAt(text, part, |before|);
    }
  }

  /** The query is empty, or part of the item's text, or its digits are part of the last four
      of the card's number. */
  ghost predicate Hits(h: Held, needle: string) {
    || needle == ""
    || PartOf(needle, h.haystack)
    || (Digits(needle) != "" && |h.digits| >= 4 && PartOf(Digits(needle), h.digits[|h.digits| - 4..]))
  }

  /** A search gives the ids of exactly the items it hits, in the order they were first held. */
  lemma SearchExact(items: seq<Held>, needle: string) returns (at: seq<nat>)
    ensures Increasing(at) && |at| == |Found(items, needle)|
    ensures forall k | 0 <= k < |at| :: at[k] < |items| && Ids(Found(items, needle))[k] == items[at[k]].id
    ensures forall i: nat | i < |items| :: i in at <==> Hits(items[i], needle)
  {
    at := KeepInOrder(items, (h: Held) => needle == "" || Matches(h, needle, Digits(needle)));
    forall i: nat | i < |items| ensures i in at <==> Hits(items[i], needle) {
      MatchesExact(items[i], needle);
    }
  }

  lemma MatchesExact(h: Held, needle: string)
    ensures needle == "" || Matches(h, needle, Digits(needle)) <==> Hits(h, needle)
  {
    hide Contains, PartOf, Digits;
    ContainsExact(h.haystack, needle);
    if |h.digits| >= 4 { ContainsExact(h.digits[|h.digits| - 4..], Digits(needle)); }
  }

  // ---- reading a vault ----

  /** How search text is made, and how a query is folded. */
  datatype Text = Text(haystack: Item -> string, fold: string -> string)

  /** What is held of an item: the whole of it, under its id, if that is a string. */
  function HeldOf(t: Text, item: Item): Option<Held> {
    if "id" in item && item["id"].Str? then
      var number := if "card" in item && item["card"].Obj? && "number" in item["card"].fields
                       && item["card"].fields["number"].Str?
                    then item["card"].fields["number"].text else "";
      Some(Held(item["id"].text, item, t.haystack(item), Digits(number)))
    else None
  }

  /** The number on the item's card, if it is text. */
  ghost predicate CardNumber(item: Item, number: string) {
    if "card" in item && item["card"].Obj? && "number" in item["card"].fields && item["card"].fields["number"].Str?
    then item["card"].fields["number"] == Str(number) else number == ""
  }

  /** An item is held if and only if its id is text: whole, with its search text and the
      digits of its card's number. */
  lemma HeldExact(t: Text, item: Item, h: Held)
    ensures HeldOf(t, item) == Some(h) <==>
            && "id" in item && item["id"] == Str(h.id)
            && h.full == item && h.haystack == t.haystack(item)
            && exists number :: CardNumber(item, number) && h.digits == Digits(number)
  {
    hide Digits;
    if HeldOf(t, item).Some? {
      var number := if "card" in item && item["card"].Obj? && "number" in item["card"].fields
                       && item["card"].fields["number"].Str?
                    then item["card"].fields["number"].text else "";
      assert CardNumber(item, number);
    }
  }

  function HeldAll(t: Text, list: seq<Json>): seq<Held> {
    if list == [] then []
    else
      var front := HeldAll(t, list[..|list| - 1]);
      var last := list[|list| - 1];
      if last.Obj? && HeldOf(t, last.fields).Some? then front + [HeldOf(t, last.fields).value] else front
  }

  function RedactedElement(v: Json): Json {
    if v.Obj? then Obj(Redacted(v.fields)) else v
  }

  function RedactedList(list: seq<Json>): seq<Json> {
    seq(|list|, i requires 0 <= i < |list| => RedactedElement(list[i]))
  }

  function Elements(vault: Item, key: string): seq<Json> {
    if key in vault && vault[key].Arr? then vault[key].elements else []
  }

  /** The read as the panel gets it. */
  function RedactedVault(vault: Item): Item {
    if "items" in vault && vault["items"].Arr? then
      vault["items" := Arr(RedactedList(vault["items"].elements))]
    else vault
  }

  /** Everything a read holds: the items, then the SSH keys. */
  function ReadAll(t: Text, vault: Item): seq<Held> {
    HeldAll(t, Elements(vault, "items")) + HeldAll(t, Elements(vault, "sshKeys"))
  }

  lemma {:induction false} PutAllOn(items: seq<Held>, xs: seq<Held>, ys: seq<Held>)
    ensures PutAll(items, xs + ys) == PutAll(PutAll(items, xs), ys)
  {
    if ys == [] {
      assert xs + ys == xs;
    } else {
      PutAllOn(items, xs, ys[..|ys| - 1]);
      assert (xs + ys)[..|xs + ys| - 1] == xs + ys[..|ys| - 1];
    }
  }

  lemma {:induction false} HeldAllOn(t: Text, xs: seq<Json>, ys: seq<Json>)
    ensures HeldAll(t, xs + ys) == HeldAll(t, xs) + HeldAll(t, ys)
  {
    hide HeldOf;
    if ys == [] {
      assert xs + ys == xs;
    } else {
      HeldAllOn(t, xs, ys[..|ys| - 1]);
      assert (xs + ys)[..|xs + ys| - 1] == xs + ys[..|ys| - 1];
    }
  }

  /** An object with this string id. */
  predicate HasId(v: Json, id: string) {
    v.Obj? && "id" in v.fields && v.fields["id"] == Str(id)
  }

  /** The last object of the list with this id. */
  ghost predicate IsLast(list: seq<Json>, id: string, at: nat) {
    && at < |list| && HasId(list[at], id)
    && forall i | at < i < |list| :: !HasId(list[i], id)
  }

  lemma {:induction false} LastHeld(t: Text, list: seq<Json>, id: string, at: nat, otherwise: Option<Held>)
    requires IsLast(list, id, at)
    ensures LastOf(HeldAll(t, list), id, otherwise) == HeldOf(t, list[at].fields)
  {
    var front, last := list[..|list| - 1], list[|list| - 1];
    if last.Obj? && HeldOf(t, last.fields).Some? {
      assert (HeldAll(t, front) + [HeldOf(t, last.fields).value])[..|HeldAll(t, front)|] == HeldAll(t, front);
    }
    if at < |list| - 1 {
      LastHeld(t, front, id, at, otherwise);
    }
  }

  lemma {:induction false} NoneHeld(t: Text, list: seq<Json>, id: string, otherwise: Option<Held>)
    requires forall i | 0 <= i < |list| :: !HasId(list[i], id)
    ensures LastOf(HeldAll(t, list), id, otherwise) == otherwise
  {
    if list != [] {
      var front, last := list[..|list| - 1], list[|list| - 1];
      if last.Obj? && HeldOf(t, last.fields).Some? {
        assert (HeldAll(t, front) + [HeldOf(t, last.fields).value])[..|HeldAll(t, front)|] == HeldAll(t, front);
      }
      NoneHeld(t, front, id, otherwise);
    }
  }

  /** The store keeps a read whole: the id of an object among its items and SSH keys finds
      the last object with that id, exactly as it was read, and an id no object has finds
      what it found before. */
  lemma ReadIsKeptWhole(t: Text, items: seq<Held>, vault: Item, id: string)
    requires DistinctIds(items)
    ensures var list := Elements(vault, "items") + Elements(vault, "sshKeys");
            var after := Lookup(PutAll(items, ReadAll(t, vault)), id);
            && (forall at: nat | IsLast(list, id, at) ::
                  after.Some? && after.value.id == id && Obj(after.value.full) == list[at])
            && ((forall i | 0 <= i < |list| :: !HasId(list[i], id)) ==> after == Lookup(items, id))
  {
    var list := Elements(vault, "items") + Elements(vault, "sshKeys");
    HeldAllOn(t, Elements(vault, "items"), Elements(vault, "sshKeys"));
    PutAllLooksUp(items, ReadAll(t, vault), id);
    forall at: nat | IsLast(list, id, at)
      ensures LastOf(HeldAll(t, list), id, Lookup(items, id)) == HeldOf(t, list[at].fields)
    {
      LastHeld(t, list, id, at, Lookup(items, id));
    }
    if forall i | 0 <= i < |list| :: !HasId(list[i], id) {
      NoneHeld(t, list, id, Lookup(items, id));
    }
  }

  // ---- the store itself ----

  const TWO64: nat := 0x1_0000_0000_0000_0000

  class VaultStore {
    const text: Text
    var session: Option<string>
    var secrets: map<string, string>
    var items: seq<Held>
    var index: map<string, nat>
    var generation: nat

    ghost predicate Valid()
      reads this
    {
      Indexed(items, index) && generation < TWO64
    }

    constructor (t: Text)
      ensures Valid() && text == t && items == [] && session == None && secrets == map[] && generation == 0
    {
      text, session, secrets, items, index, generation := t, None, map[], [], map[], 0;
    }

    /** Drop everything but the named secrets. */
    method Forget(keep: set<string>)
      requires Valid()
      modifies this
      ensures Valid() && generation == (old(generation) + 1) % TWO64
      ensures session == None && items == []
      ensures secrets == map name | name in old(secrets) && name in keep :: old(secrets)[name]
    {
      generation := if generation == TWO64 - 1 then 0 else generation + 1;
      session := None;
      secrets := map name | name in secrets && name in keep :: secrets[name];
      items := [];
      index := map[];
    }

    /** Copy the session key into a secret. */
    method HoldSession(name: string) returns (ok: bool)
      requires Valid()
      modifies this`secrets
      ensures ok == session.Some?
      ensures secrets == if ok then old(secrets)[name := session.value] else old(secrets)
    {
      if session.None? {
        return false;
      }
      secrets := secrets[name := session.value];
      return true;
    }

    method ForgetSecret(name: string)
      requires Valid()
      modifies this`secrets
      ensures secrets == old(secrets) - {name}
    {
      secrets := secrets - {name};
    }

    /** Drop one item and move the index of everything behind it. */
    method ForgetItem(id: string)
      requires Valid()
      modifies this`items, this`index
      ensures Valid() && items == Take(old(items), id)
    {
      hide Without, DistinctIds, Indexed, PartlyIndexed;
      IndexIsPosition(items, index, id);
      if id !in index {
        return;
      }
      var at := index[id];
      RemoveStarts(items, index, id);
      ghost var keys := index.Keys - {id};
      index := index - {id};
      items := Without(items, at);
      for position := at to |items|
        invariant items == Without(old(items), at)
        invariant PartlyIndexed(items, index, keys, position) && DistinctIds(items)
      {
        ReindexStep(items, index, keys, position);
        index := index[items[position].id := position];
      }
      ReindexEnds(items, index, keys);
    }

    method Hold(item: Item)
      requires Valid()
      modifies this`items, this`index
      ensures Valid()
      ensures items == if HeldOf(text, item).Some? then Put(old(items), HeldOf(text, item).value) else old(items)
    {
      var held := HeldOf(text, item);
      if held.None? {
        return;
      }
      var id := held.value.id;
      IndexIsPosition(items, index, id);
      if id in index {
        items := items[index[id] := held.value];
      } else {
        index := index[id := |items|];
        items := items + [held.value];
      }
    }

    /** What linear lookup would find. */
    method Item(id: string) returns (full: Option<Item>)
      requires Valid()
      ensures full == if Lookup(items, id).Some? then Some(Lookup(items, id).value.full) else None
    {
      IndexIsPosition(items, index, id);
      if id in index {
        return Some(items[index[id]].full);
      }
      return None;
    }

    /** The ids of the matching items, in the order they were first held. */
    method Search(query: string) returns (ids: seq<string>)
      requires Valid()
      ensures ids == Ids(Found(items, text.fold(query)))
    {
      var needle := text.fold(query);
      if needle == "" {
        FoundAll(items);
        return Ids(items);
      }
      var digits := Digits(needle);
      var found: seq<Held> := [];
      for i := 0 to |items|
        invariant found == Found(items[..i], needle)
      {
        assert items[..i + 1][..i] == items[..i];
        if Matches(items[i], needle, digits) {
          found := found + [items[i]];
        }
      }
      assert items[..|items|] == items;
      return Ids(found);
    }

    /** Hold every object of a list. */
    method HoldList(list: seq<Json>)
      requires Valid()
      modifies this`items, this`index
      ensures Valid() && items == PutAll(old(items), HeldAll(text, list))
    {
      hide Put, HeldOf;
      for i := 0 to |list|
        invariant Valid() && items == PutAll(old(items), HeldAll(text, list[..i]))
      {
        assert list[..i + 1][..i] == list[..i];
        if list[i].Obj? {
          Hold(list[i].fields);
          ghost var held := HeldOf(text, list[i].fields);
          if held.Some? {
            assert (HeldAll(text, list[..i]) + [held.value])[..|HeldAll(text, list[..i])|] == HeldAll(text, list[..i]);
          }
        }
      }
      assert list[..|list|] == list;
    }

    /** Take a vault read: hold it all, hand on only what is not secret. */
    method StripVault(vault: Json, replace: bool) returns (out: Option<Item>)
      requires Valid()
      modifies this`items, this`index
      ensures Valid()
      ensures !vault.Obj? ==> out == None && items == old(items)
      ensures vault.Obj? ==> out == Some(RedactedVault(vault.fields))
      ensures vault.Obj? ==> items == PutAll(if replace then [] else old(items), ReadAll(text, vault.fields))
    {
      if !vault.Obj? {
        return None;
      }
      if replace {
        items, index := [], map[];
      }
      ghost var start := items;
      var panel := vault.fields;
      if "items" in panel && panel["items"].Arr? {
        HoldList(panel["items"].elements);
        var stripped := StripList(panel["items"].elements);
        panel := panel["items" := Arr(stripped)];
      }
      if "sshKeys" in vault.fields && vault.fields["sshKeys"].Arr? {
        HoldList(vault.fields["sshKeys"].elements);
      }
      PutAllOn(start, HeldAll(text, Elements(vault.fields, "items")), HeldAll(text, Elements(vault.fields, "sshKeys")));
      return Some(panel);
    }
  }

  method StripList(list: seq<Json>) returns (out: seq<Json>)
    ensures out == RedactedList(list)
  {
    out := [];
    for i := 0 to |list|
      invariant |out| == i && forall k | 0 <= k < i :: out[k] == RedactedElement(list[k])
    {
      if list[i].Obj? {
        var stripped := StripItem(list[i].fields);
        out := out + [Obj(stripped)];
      } else {
        out := out + [list[i]];
      }
    }
  }
}
