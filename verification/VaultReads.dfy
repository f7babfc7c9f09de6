/** Whole vault reads as the panel gets them: what they keep, and what they do not give away. */
module VaultReadsModel {
  import opened Base
  import opened RedactionModel
  import opened VaultStoreModel

  // ---- non-interference ----

  /** Two elements of `items` that differ only in secret values. */
  ghost predicate ElementsAgree(a: Json, b: Json) {
    if a.Obj? && b.Obj? then SameButSecrets(a.fields, b.fields) else a == b
  }

  ghost predicate ListsAgree(a: seq<Json>, b: seq<Json>) {
    |a| == |b| && forall i | 0 <= i < |a| :: ElementsAgree(a[i], b[i])
  }

  ghost predicate ItemsAgree(a: Json, b: Json) {
    if a.Arr? && b.Arr? then ListsAgree(a.elements, b.elements) else a == b
  }

  /** Two reads that differ only in secret values of their items. */
  ghost predicate ReadsAgree(x: Item, y: Item) {
    && (forall key | key != "items" :: AgreeAt(x, y, key))
    && ("items" in x <==> "items" in y)
    && ("items" in x ==> ItemsAgree(x["items"], y["items"]))
  }

  lemma ElementExact(a: Json, b: Json)
    ensures RedactedElement(a) == RedactedElement(b) <==> ElementsAgree(a, b)
  {
    hide Redacted, SameButSecrets;
    if a.Obj? && b.Obj? { RedactionExact(a.fields, b.fields); }
  }

  lemma ListExact(a: seq<Json>, b: seq<Json>)
    ensures RedactedList(a) == RedactedList(b) <==> ListsAgree(a, b)
  {
    hide RedactedElement, ElementsAgree;
    var x, y := RedactedList(a), RedactedList(b);
    if |a| == |b| {
      forall i | 0 <= i < |a| ensures x[i] == y[i] <==> ElementsAgree(a[i], b[i]) {
        ElementExact(a[i], b[i]);
      }
      if x == y { assert forall i | 0 <= i < |x| :: x[i] == y[i]; }
    } else {
      assert |x| != |y|;
    }
  }

  /** The items of a read, redacted. */
  function RedactedItems(v: Json): Json {
    if v.Arr? then Arr(RedactedList(v.elements)) else v
  }

  lemma RedactedVaultIs(x: Item)
    ensures RedactedVault(x) == if "items" in x then x["items" := RedactedItems(x["items"])] else x
  {
    hide RedactedList;
    if "items" in x && !x["items"].Arr? { assert x["items" := x["items"]] == x; }
  }

  /** Non-interference of whole reads, both ways: the panel gets the same output from two
      reads if and only if they agree on everything but the secret values of their items. */
  lemma ReadExact(x: Item, y: Item)
    ensures RedactedVault(x) == RedactedVault(y) <==> ReadsAgree(x, y)
  {
    hide RedactedVault, RedactedList, ListsAgree;
    RedactedVaultIs(x);
    RedactedVaultIs(y);
    var a, b := RedactedVault(x), RedactedVault(y);
    if "items" in x && "items" in y {
      var (v, w) := (x["items"], y["items"]);
      if v.Arr? && w.Arr? { ListExact(v.elements, w.elements); }
      assert RedactedItems(v) == RedactedItems(w) <==> ItemsAgree(v, w);
    }
    if a == b {
      forall key | key != "items" ensures AgreeAt(x, y, key) {
        assert AgreeAt(a, b, key);
      }
      assert AgreeAt(a, b, "items");
    }
    if ReadsAgree(x, y) {
      forall key ensures (key in a <==> key in b) && (key in a ==> a[key] == b[key]) {
        if key != "items" { assert AgreeAt(x, y, key); }
      }
    }
  }

  /** The read as the panel gets it: everything but the items as it was, and of these each
      object stripped of its secrets, in its place. */
  ghost predicate ReadStripped(vault: Item, out: Item) {
    && (forall key :: key in out <==> key in vault)
    && (forall key | key in out && key != "items" :: out[key] == vault[key])
    && ("items" in vault && !vault["items"].Arr? ==> out["items"] == vault["items"])
    && ("items" in vault && vault["items"].Arr? ==>
          && out["items"].Arr? && |out["items"].elements| == |vault["items"].elements|
          && forall i | 0 <= i < |vault["items"].elements| ::
               ElementStripped(vault["items"].elements[i], out["items"].elements[i]))
  }

  ghost predicate ElementStripped(before: Json, after: Json) {
    if before.Obj? then after.Obj? && Stripped(before.fields, after.fields) else after == before
  }

  lemma ReadIsStripped(vault: Item)
    ensures ReadStripped(vault, RedactedVault(vault))
  {
    hide Redacted, Stripped;
    if "items" in vault && vault["items"].Arr? {
      var list := vault["items"].elements;
      forall i | 0 <= i < |list| ensures ElementStripped(list[i], RedactedVault(vault)["items"].elements[i]) {
        if list[i].Obj? { RedactedIsStripped(list[i].fields); }
      }
    }
  }

  // ---- paths ----

  /** The object at this place among the items, if there is one. */
  function ItemAt(vault: Item, i: nat): Option<Item> {
    if "items" in vault && vault["items"].Arr? && i < |vault["items"].elements| && vault["items"].elements[i].Obj?
    then Some(vault["items"].elements[i].fields) else None
  }

  /** The secrets of a read: those of its items. */
  predicate ReadSecret(vault: Item, q: Path) {
    && |q| > 2 && q[0] == Key("items") && q[1].Nth?
    && var item := ItemAt(vault, q[1].i);
       item.Some? && ItemSecret(item.value, q[2..])
  }

  function RecordPath(i: nat): Path {
    [Key("items"), Nth(i), Key("qsbwHeld")]
  }

  /** Not on, above or below the record of what was removed from some item. */
  ghost predicate OffRecord(vault: Item, p: Path) {
    forall i | ItemAt(vault, i).Some? :: !Related(p, RecordPath(i))
  }

  ghost predicate ClearRead(vault: Item, p: Path) {
    forall q: Path | ReadSecret(vault, q) :: !Related(p, q)
  }

  lemma RelatedDeep(p: Path, q: Path)
    requires |p| >= 2 && |q| >= 2
    ensures Related(p, q) <==> p[0] == q[0] && p[1] == q[1] && Related(p[2..], q[2..])
  {
    RelatedTails(p, q);
    RelatedTails(p[1..], q[1..]);
    assert p[1..][1..] == p[2..] && q[1..][1..] == q[2..];
  }

  /** In a whole read too, exactly the paths clear of every secret keep their value, and
      nothing appears where there was nothing, but for the record left in each item. */
  lemma ReadPathExact(vault: Item, p: Path)
    requires OffRecord(vault, p) && p != []
    ensures Follow(Obj(vault), p).Some? ==>
              (Follow(Obj(RedactedVault(vault)), p) == Follow(Obj(vault), p) <==> ClearRead(vault, p))
    ensures Follow(Obj(vault), p).None? ==> Follow(Obj(RedactedVault(vault)), p).None?
  {
    RedactedVaultIs(vault);
    hide RedactedVault, Redacted, ItemSecret;
    if p[0] == Key("items") && "items" in vault && vault["items"].Arr? {
      if |p| >= 2 && p[1].Nth? && ItemAt(vault, p[1].i).Some? {
        InsideItem(vault, p);
      } else {
        OutsideItems(vault, p);
      }
    } else {
      forall q: Path | ReadSecret(vault, q) ensures !Related(p, q) { RelatedTails(p, q); }
    }
  }

  lemma InsideItem(vault: Item, p: Path)
    requires OffRecord(vault, p) && |p| >= 2 && p[0] == Key("items") && p[1].Nth? && ItemAt(vault, p[1].i).Some?
    ensures Follow(Obj(vault), p).Some? ==>
              (Follow(Obj(RedactedVault(vault)), p) == Follow(Obj(vault), p) <==> ClearRead(vault, p))
    ensures Follow(Obj(vault), p).None? ==> Follow(Obj(RedactedVault(vault)), p).None?
  {
    var i := p[1].i;
    var item := ItemAt(vault, i).value;
    RecordIsApart(vault, p);
    OthersUnchanged(item, p[2..]);
    FollowItem(vault, p, item);
    ClearInItem(vault, p, item);
  }

  lemma RecordIsApart(vault: Item, p: Path)
    requires OffRecord(vault, p) && |p| >= 2 && p[0] == Key("items") && p[1].Nth? && ItemAt(vault, p[1].i).Some?
    ensures |p| > 2 && p[2] != Key("qsbwHeld")
  {
    var r := RecordPath(p[1].i);
    RelatedDeep(p, r);
    assert r[2..] == [Key("qsbwHeld")];
    if p[2..] != [] {
      RelatedTails(p[2..], r[2..]);
      assert r[2..][1..] == [];
    }
  }

  lemma FollowItem(vault: Item, p: Path, item: Item)
    requires |p| > 2 && p[0] == Key("items") && p[1].Nth? && ItemAt(vault, p[1].i) == Some(item)
    ensures Follow(Obj(vault), p) == Follow(Obj(item), p[2..])
    ensures Follow(Obj(RedactedVault(vault)), p) == Follow(Obj(Redacted(item)), p[2..])
  {
    hide Redacted;
    assert p[1..][1..] == p[2..];
    var v := vault["items"];
    assert Follow(Obj(vault), p) == Follow(v, p[1..]) == Follow(v.elements[p[1].i], p[2..]);
    var w := RedactedVault(vault)["items"];
    assert w.elements[p[1].i] == Obj(Redacted(item));
    assert Follow(Obj(RedactedVault(vault)), p) == Follow(w, p[1..]);
  }

  lemma ClearInItem(vault: Item, p: Path, item: Item)
    requires |p| > 2 && p[0] == Key("items") && p[1].Nth? && ItemAt(vault, p[1].i) == Some(item)
    ensures ClearRead(vault, p) <==> Clear(item, p[2..])
  {
    hide ItemSecret, Related;
    if ClearRead(vault, p) {
      forall q: Path | ItemSecret(item, q) ensures !Related(p[2..], q) {
        var whole := p[..2] + q;
        assert whole[2..] == q;
        assert |q| > 0 by { SecretsAreDeep(item, q); }
        assert ReadSecret(vault, whole);
        RelatedDeep(p, whole);
      }
    }
    if Clear(item, p[2..]) {
      forall q: Path | ReadSecret(vault, q) ensures !Related(p, q) { RelatedDeep(p, q); }
    }
  }

  lemma SecretsAreDeep(item: Item, q: Path)
    requires ItemSecret(item, q)
    ensures |q| > 0
  {
  }

  lemma OutsideItems(vault: Item, p: Path)
    requires OffRecord(vault, p) && p != [] && p[0] == Key("items") && "items" in vault && vault["items"].Arr?
    requires |p| >= 2 && p[1].Nth? ==> ItemAt(vault, p[1].i).None?
    ensures ClearRead(vault, p) && Follow(Obj(RedactedVault(vault)), p) == Follow(Obj(vault), p)
  {
    hide *;
    if |p| == 1 {
      assert p == [Key("items")];
      NoneBelow(vault, p);
      NoObjects(vault);
      NoSecrets(vault, p);
    } else {
      OutsideClear(vault, p);
      FollowOutside(vault, p);
    }
  }

  lemma NoSecrets(vault: Item, p: Path)
    requires forall i: nat :: ItemAt(vault, i).None?
    ensures ClearRead(vault, p)
  {
    hide ItemAt, Related;
    assert forall q: Path :: !ReadSecret(vault, q);
  }

  lemma OutsideClear(vault: Item, p: Path)
    requires |p| >= 2 && (p[0] == Key("items") && p[1].Nth? ==> ItemAt(vault, p[1].i).None?)
    ensures ClearRead(vault, p)
  {
    hide ItemAt, Related;
    forall q: Path | ReadSecret(vault, q) ensures !Related(p, q) { RelatedDeep(p, q); }
  }

  lemma NoneBelow(vault: Item, p: Path)
    requires OffRecord(vault, p) && p == [Key("items")]
    ensures forall i: nat :: ItemAt(vault, i).None?
  {
    hide ItemAt;
    forall i: nat ensures ItemAt(vault, i).None? {
      assert Related(p, RecordPath(i));
    }
  }

  lemma FollowOutside(vault: Item, p: Path)
    requires |p| >= 2 && p[0] == Key("items") && "items" in vault && vault["items"].Arr?
    requires p[1].Nth? ==> ItemAt(vault, p[1].i).None?
    ensures Follow(Obj(RedactedVault(vault)), p) == Follow(Obj(vault), p)
  {
    hide Redacted;
    var v, w := vault["items"], RedactedVault(vault)["items"];
    assert Follow(Obj(vault), p) == Follow(v, p[1..]);
    assert Follow(Obj(RedactedVault(vault)), p) == Follow(w, p[1..]);
    if p[1].Nth? && p[1].i < |v.elements| {
      assert w.elements[p[1].i] == v.elements[p[1].i];
    }
  }

  lemma NoObjects(vault: Item)
    requires "items" in vault && vault["items"].Arr? && forall i :: ItemAt(vault, i).None?
    ensures RedactedVault(vault) == vault
  {
    var list := vault["items"].elements;
    forall i | 0 <= i < |list| ensures RedactedList(list)[i] == list[i] {
      assert ItemAt(vault, i).None?;
    }
    assert RedactedList(list) == list;
    assert vault["items" := vault["items"]] == vault;
  }
}
