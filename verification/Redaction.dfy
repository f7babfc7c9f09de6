/** What the panel gets of a vault item: everything but its secrets. */
module RedactionModel {
  import opened Base

  datatype Json = Null | Bool(flag: bool) | Int(n: int) | Float(r: real) | Str(text: string)
                | Arr(elements: seq<Json>) | Obj(fields: map<string, Json>)

  type Item = map<string, Json>

  /** The paths removed from every item. */
  const SECRET_PATHS: seq<(string, Option<string>)> := [
    ("login", Some("password")), ("login", Some("totp")), ("login", Some("fido2Credentials")),
    ("passwordHistory", None), ("notes", None), ("card", Some("code")),
    ("identity", Some("ssn")), ("identity", Some("passportNumber")), ("identity", Some("licenseNumber"))]

  // ---- presence flags ----

  function At(item: Item, path: (string, Option<string>)): Option<Json> {
    if path.0 !in item then None
    else if path.1.None? then Some(item[path.0])
    else if item[path.0].Obj? && path.1.value in item[path.0].fields then Some(item[path.0].fields[path.1.value])
    else None
  }

  predicate Present(item: Item, path: (string, Option<string>)) {
    match At(item, path)
    case None => false
    case Some(Null) => false
    case Some(Str(s)) => s != ""
    case Some(Arr(a)) => a != []
    case Some(_) => true
  }

  /** What the panel is told there was. */
  function Flags(item: Item): Item {
    map["password" := Bool(Present(item, ("login", Some("password")))),
        "totp" := Bool(Present(item, ("login", Some("totp")))),
        "notes" := Bool(Present(item, ("notes", None))),
        "cardCode" := Bool(Present(item, ("card", Some("code")))),
        "ssn" := Bool(Present(item, ("identity", Some("ssn")))),
        "passportNumber" := Bool(Present(item, ("identity", Some("passportNumber")))),
        "licenseNumber" := Bool(Present(item, ("identity", Some("licenseNumber"))))]
  }

  predicate SameFlags(x: Item, y: Item) {
    && Present(x, ("login", Some("password"))) == Present(y, ("login", Some("password")))
    && Present(x, ("login", Some("totp"))) == Present(y, ("login", Some("totp")))
    && Present(x, ("notes", None)) == Present(y, ("notes", None))
    && Present(x, ("card", Some("code"))) == Present(y, ("card", Some("code")))
    && Present(x, ("identity", Some("ssn"))) == Present(y, ("identity", Some("ssn")))
    && Present(x, ("identity", Some("passportNumber"))) == Present(y, ("identity", Some("passportNumber")))
    && Present(x, ("identity", Some("licenseNumber"))) == Present(y, ("identity", Some("licenseNumber")))
  }

  lemma FlagsExact(x: Item, y: Item)
    ensures Flags(x) == Flags(y) <==> SameFlags(x, y)
  {
    hide Present;
    var f, g := Flags(x), Flags(y);
    if f == g {
      assert f["password"] == g["password"] && f["totp"] == g["totp"] && f["notes"] == g["notes"];
      assert f["cardCode"] == g["cardCode"] && f["ssn"] == g["ssn"];
      assert f["passportNumber"] == g["passportNumber"] && f["licenseNumber"] == g["licenseNumber"];
    }
  }

  // ---- the parts of an item that hold secrets ----

  const LOGIN_SECRETS: set<string> := {"password", "totp", "fido2Credentials"}
  const IDENTITY_SECRETS: set<string> := {"ssn", "passportNumber", "licenseNumber"}

  function Cut(v: Json, keys: set<string>): Json {
    if v.Obj? then Obj(v.fields - keys) else v
  }

  function LastFour(s: string): string {
    if |s| <= 4 then s else s[|s| - 4..]
  }

  function ShortNumber(fields: Item): Item {
    if "number" in fields && fields["number"].Str? then fields["number" := Str(LastFour(fields["number"].text))]
    else fields
  }

  function CutCard(v: Json): Json {
    if v.Obj? then Obj(ShortNumber(v.fields - {"code"})) else v
  }

  /** A hidden custom field. */
  predicate Hidden(v: Json) {
    v.Obj? && "type" in v.fields && v.fields["type"] == Int(1)
  }

  function CutField(v: Json): Json {
    if Hidden(v) then Obj(v.fields - {"value"}) else v
  }

  function CutFields(v: Json): Json {
    if v.Arr? then Arr(seq(|v.elements|, i requires 0 <= i < |v.elements| => CutField(v.elements[i]))) else v
  }

  /** One member of an item, redacted. */
  function CutMember(key: string, v: Json): Json {
    if key == "login" then Cut(v, LOGIN_SECRETS)
    else if key == "identity" then Cut(v, IDENTITY_SECRETS)
    else if key == "card" then CutCard(v)
    else if key == "fields" then CutFields(v)
    else v
  }

  predicate Dropped(key: string) {
    key == "notes" || key == "passwordHistory" || key == "qsbwHeld"
  }

  /** The item as the panel gets it. */
  function Redacted(item: Item): Item {
    (map key | key in item && !Dropped(key) :: CutMember(key, item[key]))["qsbwHeld" := Obj(Flags(item))]
  }

  // ---- said of the result, member by member ----

  /** The same object without these members, all others as they were; anything but an
      object is as it was. */
  ghost predicate LosesOnly(before: Json, after: Json, keys: set<string>) {
    if before.Obj? then
      && after.Obj?
      && (forall key :: key in after.fields <==> key in before.fields && key !in keys)
      && (forall key | key in after.fields :: after.fields[key] == before.fields[key])
    else after == before
  }

  /** No code, and of a number that is a text at most the last four characters. */
  ghost predicate CardStripped(before: Json, after: Json) {
    if before.Obj? then
      && after.Obj?
      && (forall key :: key in after.fields <==> key in before.fields && key != "code")
      && (forall key | key in after.fields && key != "number" :: after.fields[key] == before.fields[key])
      && ("number" in before.fields ==> NumberStripped(before.fields["number"], after.fields["number"]))
    else after == before
  }

  ghost predicate NumberStripped(before: Json, after: Json) {
    if before.Str? && |before.text| > 4 then after == Str(before.text[|before.text| - 4..]) else after == before
  }

  /** A custom field of type 1 loses its value, any other is as it was. */
  ghost predicate FieldStripped(before: Json, after: Json) {
    if before.Obj? && "type" in before.fields && before.fields["type"] == Int(1)
    then LosesOnly(before, after, {"value"}) else after == before
  }

  ghost predicate FieldListStripped(before: Json, after: Json) {
    if before.Arr? then
      && after.Arr? && |after.elements| == |before.elements|
      && forall i | 0 <= i < |before.elements| :: FieldStripped(before.elements[i], after.elements[i])
    else after == before
  }

  /** The member `key` of the member `outer`, if that is an object and has it. */
  function Inner(item: Item, outer: string, key: string): Option<Json> {
    if outer in item && item[outer].Obj? && key in item[outer].fields then Some(item[outer].fields[key]) else None
  }

  /** There is a value, and it is not null, an empty text or an empty list. */
  predicate Tells(v: Option<Json>) {
    v.Some? && v.value != Null && v.value != Str("") && v.value != Arr([])
  }

  /** Each flag tells of the secret it is named for, and there are no others. */
  ghost predicate FlagsTell(item: Item, flags: Item) {
    && flags.Keys == {"password", "totp", "notes", "cardCode", "ssn", "passportNumber", "licenseNumber"}
    && flags["password"] == Bool(Tells(Inner(item, "login", "password")))
    && flags["totp"] == Bool(Tells(Inner(item, "login", "totp")))
    && flags["notes"] == Bool("notes" in item && Tells(Some(item["notes"])))
    && flags["cardCode"] == Bool(Tells(Inner(item, "card", "code")))
    && flags["ssn"] == Bool(Tells(Inner(item, "identity", "ssn")))
    && flags["passportNumber"] == Bool(Tells(Inner(item, "identity", "passportNumber")))
    && flags["licenseNumber"] == Bool(Tells(Inner(item, "identity", "licenseNumber")))
  }

  /** What the panel gets of an item: no notes and no password history, the secrets of each
      member gone, every other member as it was, and a flag for each secret there was. */
  ghost predicate Stripped(item: Item, out: Item) {
    && (forall key :: key in out <==> key == "qsbwHeld" || (key in item && key != "notes" && key != "passwordHistory"))
    && out["qsbwHeld"].Obj? && FlagsTell(item, out["qsbwHeld"].fields)
    && ("login" in item ==> LosesOnly(item["login"], out["login"], {"password", "totp", "fido2Credentials"}))
    && ("identity" in item ==>
          LosesOnly(item["identity"], out["identity"], {"ssn", "passportNumber", "licenseNumber"}))
    && ("card" in item ==> CardStripped(item["card"], out["card"]))
    && ("fields" in item ==> FieldListStripped(item["fields"], out["fields"]))
    && (forall key | key in out && key !in {"qsbwHeld", "login", "identity", "card", "fields"} ::
          out[key] == item[key])
  }

  lemma CutLoses(v: Json, keys: set<string>)
    ensures LosesOnly(v, Cut(v, keys), keys)
  {
  }

  lemma CardIsStripped(v: Json)
    ensures CardStripped(v, CutCard(v))
  {
  }

  lemma FieldsAreStripped(v: Json)
    ensures FieldListStripped(v, CutFields(v))
  {
  }

  lemma PresentTells(item: Item, outer: string, key: string)
    ensures Present(item, (outer, Some(key))) == Tells(Inner(item, outer, key))
    ensures Present(item, (outer, None)) == (outer in item && Tells(Some(item[outer])))
  {
  }

  lemma FlagsDoTell(item: Item)
    ensures FlagsTell(item, Flags(item))
  {
    hide Present, Tells, Inner;
    PresentTells(item, "login", "password");
    PresentTells(item, "login", "totp");
    PresentTells(item, "notes", "");
    PresentTells(item, "card", "code");
    PresentTells(item, "identity", "ssn");
    PresentTells(item, "identity", "passportNumber");
    PresentTells(item, "identity", "licenseNumber");
  }

  lemma RedactedIsStripped(item: Item)
    ensures Stripped(item, Redacted(item))
  {
    hide Flags, FlagsTell, LosesOnly, CardStripped, FieldListStripped, Cut, CutCard, CutFields;
    FlagsDoTell(item);
    if "login" in item { CutLoses(item["login"], LOGIN_SECRETS); }
    if "identity" in item { CutLoses(item["identity"], IDENTITY_SECRETS); }
    if "card" in item { CardIsStripped(item["card"]); }
    if "fields" in item { FieldsAreStripped(item["fields"]); }
  }

  // ---- in place, step by step ----

  function Removed(item: Item, path: (string, Option<string>)): Item {
    if path.1.None? then item - {path.0}
    else if path.0 in item && item[path.0].Obj? then item[path.0 := Obj(item[path.0].fields - {path.1.value})]
    else item
  }

  /** What removing the first `n` secret paths leaves. */
  function Pruned(key: string, v: Json, n: nat): Json
    requires n <= |SECRET_PATHS|
  {
    if n == 0 then v
    else
      var v := Pruned(key, v, n - 1);
      var path := SECRET_PATHS[n - 1];
      if path.0 == key && path.1.Some? && v.Obj? then Obj(v.fields - {path.1.value}) else v
  }

  predicate Gone(key: string, n: nat)
    requires n <= |SECRET_PATHS|
  {
    exists k :: 0 <= k < n && SECRET_PATHS[k] == (key, None)
  }

  function AfterRemovals(item: Item, n: nat): Item
    requires n <= |SECRET_PATHS|
  {
    map key | key in item && !Gone(key, n) :: Pruned(key, item[key], n)
  }

  lemma RemovalStep(item: Item, n: nat)
    requires n < |SECRET_PATHS|
    ensures AfterRemovals(item, n + 1) == Removed(AfterRemovals(item, n), SECRET_PATHS[n])
  {
    hide SECRET_PATHS;
    var path := SECRET_PATHS[n];
    forall key ensures Gone(key, n + 1) <==> Gone(key, n) || path == (key, None) {
      if path == (key, None) { assert SECRET_PATHS[n] == (key, None); }
    }
  }

  /** All nine removals, member by member. */
  lemma AllPruned(key: string, v: Json)
    ensures Pruned(key, v, 9) ==
            if key == "login" then Cut(v, LOGIN_SECRETS)
            else if key == "identity" then Cut(v, IDENTITY_SECRETS)
            else if key == "card" then Cut(v, {"code"})
            else v
  {
    assert Pruned(key, v, 1) == if key == "login" then Cut(v, {"password"}) else v;
    assert Pruned(key, v, 2) == if key == "login" then Cut(v, {"password", "totp"}) else v;
    assert Pruned(key, v, 3) == if key == "login" then Cut(v, LOGIN_SECRETS) else v;
    assert Pruned(key, v, 4) == Pruned(key, v, 3);
    assert Pruned(key, v, 5) == Pruned(key, v, 3);
    PrunedRest(key, v);
  }

  lemma PrunedRest(key: string, v: Json)
    requires Pruned(key, v, 5) == if key == "login" then Cut(v, LOGIN_SECRETS) else v
    ensures Pruned(key, v, 9) ==
            if key == "login" then Cut(v, LOGIN_SECRETS)
            else if key == "identity" then Cut(v, IDENTITY_SECRETS)
            else if key == "card" then Cut(v, {"code"})
            else v
  {
    if key == "login" {
      assert Pruned(key, v, 6) == Pruned(key, v, 5);
      assert Pruned(key, v, 7) == Pruned(key, v, 6);
      assert Pruned(key, v, 8) == Pruned(key, v, 7);
    } else if key == "card" {
      assert Pruned(key, v, 6) == Cut(v, {"code"});
      assert Pruned(key, v, 7) == Pruned(key, v, 6);
      assert Pruned(key, v, 8) == Pruned(key, v, 7);
    } else {
      assert Pruned(key, v, 6) == v;
      assert Pruned(key, v, 7) == if key == "identity" then Cut(v, {"ssn"}) else v;
      assert Pruned(key, v, 8) == if key == "identity" then Cut(v, {"ssn", "passportNumber"}) else v;
    }
  }

  lemma AllGone(key: string)
    ensures Gone(key, 9) <==> key == "notes" || key == "passwordHistory"
  {
    assert SECRET_PATHS[3] == ("passwordHistory", None) && SECRET_PATHS[4] == ("notes", None);
  }

  lemma NothingRemoved(item: Item)
    ensures AfterRemovals(item, 0) == item
  {
  }

  /** The item with its card number cut to the last four. */
  function WithShortCard(item: Item): Item {
    if "card" in item && item["card"].Obj? then item["card" := Obj(ShortNumber(item["card"].fields))] else item
  }

  function WithCutFields(item: Item): Item {
    if "fields" in item then item["fields" := CutFields(item["fields"])] else item
  }

  lemma StepsAreRedaction(item: Item)
    ensures WithCutFields(WithShortCard(AfterRemovals(item, 9)))["qsbwHeld" := Obj(Flags(item))] == Redacted(item)
  {
    hide Flags, Pruned, Gone, CutFields, ShortNumber, LastFour;
    forall key ensures Gone(key, 9) <==> key == "notes" || key == "passwordHistory" { AllGone(key); }
    forall key | key in item
      ensures Pruned(key, item[key], 9) ==
              if key == "login" then Cut(item[key], LOGIN_SECRETS)
              else if key == "identity" then Cut(item[key], IDENTITY_SECRETS)
              else if key == "card" then Cut(item[key], {"code"})
              else item[key]
    { AllPruned(key, item[key]); }
  }

  /** `strip_item`: record what there was, remove each secret path, cut the card number
      and the hidden custom fields. */
  method StripItem(item: Item) returns (out: Item)
    ensures out == Redacted(item)
    ensures Stripped(item, out)
  {
    RedactedIsStripped(item);
    hide Flags, ShortNumber, CutFields, Pruned, Gone, Redacted, Stripped;
    var held := Flags(item);
    out := item;
    NothingRemoved(item);
    for n := 0 to 9
      invariant out == AfterRemovals(item, n)
    {
      RemovalStep(item, n);
      out := Removed(out, SECRET_PATHS[n]);
    }
    out := WithShortCard(out);
    if "fields" in out && out["fields"].Arr? {
      var cut := StripFields(out["fields"].elements);
      out := out["fields" := Arr(cut)];
    }
    StepsAreRedaction(item);
    NoFieldsToCut(WithShortCard(AfterRemovals(item, 9)), out);
    out := out["qsbwHeld" := Obj(held)];
  }

  lemma NoFieldsToCut(item: Item, out: Item)
    requires out == if "fields" in item && item["fields"].Arr?
                    then item["fields" := CutFields(item["fields"])] else item
    ensures out == WithCutFields(item)
  {
  }

  method StripFields(fields: seq<Json>) returns (cut: seq<Json>)
    ensures Arr(cut) == CutFields(Arr(fields))
  {
    cut := [];
    for i := 0 to |fields|
      invariant |cut| == i && forall k | 0 <= k < i :: cut[k] == CutField(fields[k])
    {
      cut := cut + [CutField(fields[i])];
    }
  }

  // ---- non-interference ----

  predicate AgreeAt(a: Item, b: Item, key: string) {
    (key in a <==> key in b) && (key in a ==> a[key] == b[key])
  }

  /** The same object apart from these members, or the same other value. */
  ghost predicate AgreeOutside(a: Json, b: Json, keys: set<string>) {
    if a.Obj? && b.Obj? then forall key | key !in keys :: AgreeAt(a.fields, b.fields, key) else a == b
  }

  lemma CutExact(a: Json, b: Json, keys: set<string>)
    ensures Cut(a, keys) == Cut(b, keys) <==> AgreeOutside(a, b, keys)
  {
    if a.Obj? && b.Obj? {
      var x, y := a.fields - keys, b.fields - keys;
      if x == y {
        forall key | key !in keys ensures AgreeAt(a.fields, b.fields, key) {
          assert key in a.fields <==> key in x;
          assert key in b.fields <==> key in y;
        }
      }
      if AgreeOutside(a, b, keys) {
        forall key ensures (key in x <==> key in y) && (key in x ==> x[key] == y[key]) {
          assert key !in keys ==> AgreeAt(a.fields, b.fields, key);
        }
      }
    }
  }

  /** Card numbers that end in the same four characters, or are the same other value. */
  predicate NumbersAgree(a: Item, b: Item) {
    if "number" in a && a["number"].Str? && "number" in b && b["number"].Str? then
      LastFour(a["number"].text) == LastFour(b["number"].text)
    else AgreeAt(a, b, "number")
  }

  ghost predicate CardsAgree(a: Json, b: Json) {
    if a.Obj? && b.Obj? then
      && NumbersAgree(a.fields, b.fields)
      && forall key | key != "code" && key != "number" :: AgreeAt(a.fields, b.fields, key)
    else a == b
  }

  lemma CardsExact(a: Json, b: Json)
    ensures CutCard(a) == CutCard(b) <==> CardsAgree(a, b)
  {
    if a.Obj? && b.Obj? {
      hide LastFour;
      var x, y := ShortNumber(a.fields - {"code"}), ShortNumber(b.fields - {"code"});
      assert forall key | key != "code" && key != "number" ::
          (key in x <==> key in a.fields) && (key in y <==> key in b.fields);
      if x == y {
        assert AgreeAt(x, y, "number");
        forall key | key != "code" && key != "number" ensures AgreeAt(a.fields, b.fields, key) {
          assert AgreeAt(x, y, key);
        }
      }
      if CardsAgree(a, b) {
        forall key ensures (key in x <==> key in y) && (key in x ==> x[key] == y[key]) {
          if key != "code" && key != "number" { assert AgreeAt(a.fields, b.fields, key); }
        }
      }
    }
  }

  /** Custom fields of type 1 that agree outside their value, or the same field. */
  ghost predicate FieldsAgree(a: Json, b: Json) {
    if TypeOf(a) == Some(Int(1)) && TypeOf(b) == Some(Int(1)) then
      forall key | key != "value" :: AgreeAt(a.fields, b.fields, key)
    else a == b
  }

  /** The member `type` of an object. */
  function TypeOf(v: Json): (t: Option<Json>)
    ensures t.Some? ==> v.Obj?
  {
    if v.Obj? && "type" in v.fields then Some(v.fields["type"]) else None
  }

  lemma FieldExact(a: Json, b: Json)
    ensures CutField(a) == CutField(b) <==> FieldsAgree(a, b)
  {
    CutExact(a, b, {"value"});
    assert TypeOf(CutField(a)) == TypeOf(a);
    assert TypeOf(CutField(b)) == TypeOf(b);
  }

  ghost predicate FieldListsAgree(a: Json, b: Json) {
    if a.Arr? && b.Arr? then
      |a.elements| == |b.elements|
      && forall i | 0 <= i < |a.elements| :: FieldsAgree(a.elements[i], b.elements[i])
    else a == b
  }

  lemma FieldListsExact(a: Json, b: Json)
    ensures CutFields(a) == CutFields(b) <==> FieldListsAgree(a, b)
  {
    if a.Arr? && b.Arr? && |a.elements| != |b.elements| {
      assert |CutFields(a).elements| != |CutFields(b).elements|;
    }
    if a.Arr? && b.Arr? && |a.elements| == |b.elements| {
      var x, y := CutFields(a).elements, CutFields(b).elements;
      forall i | 0 <= i < |a.elements| ensures x[i] == y[i] <==> FieldsAgree(a.elements[i], b.elements[i]) {
        FieldExact(a.elements[i], b.elements[i]);
      }
      if CutFields(a) == CutFields(b) { assert forall i | 0 <= i < |x| :: x[i] == y[i]; }
    }
  }

  /** One member of two items, seen without its secrets. */
  ghost predicate MembersAgree(key: string, a: Json, b: Json) {
    if key == "login" then AgreeOutside(a, b, {"password", "totp", "fido2Credentials"})
    else if key == "identity" then AgreeOutside(a, b, {"ssn", "passportNumber", "licenseNumber"})
    else if key == "card" then CardsAgree(a, b)
    else if key == "fields" then FieldListsAgree(a, b)
    else a == b
  }

  lemma MemberExact(key: string, a: Json, b: Json)
    ensures CutMember(key, a) == CutMember(key, b) <==> MembersAgree(key, a, b)
  {
    hide CutCard, CutFields, Cut, AgreeOutside, CardsAgree, FieldListsAgree;
    CutExact(a, b, LOGIN_SECRETS);
    CutExact(a, b, IDENTITY_SECRETS);
    CardsExact(a, b);
    FieldListsExact(a, b);
  }

  /** Two items that differ only in secret values. */
  ghost predicate SameButSecrets(x: Item, y: Item) {
    && SameFlags(x, y)
    && forall key | key !in {"notes", "passwordHistory", "qsbwHeld"} ::
         (key in x <==> key in y) && (key in x ==> MembersAgree(key, x[key], y[key]))
  }

  /** Redaction is non-interfering, and exactly so: two items come out the same if and only
      if they differ in nothing but secret values, with the same ones present. */
  lemma RedactionExact(x: Item, y: Item)
    ensures Redacted(x) == Redacted(y) <==> SameButSecrets(x, y)
  {
    hide CutMember, MembersAgree, Flags, SameFlags;
    FlagsExact(x, y);
    forall key | key in x && key in y
      ensures CutMember(key, x[key]) == CutMember(key, y[key]) <==> MembersAgree(key, x[key], y[key])
    { MemberExact(key, x[key], y[key]); }
    var a, b := Redacted(x), Redacted(y);
    assert a["qsbwHeld"] == Obj(Flags(x)) && b["qsbwHeld"] == Obj(Flags(y));
    if a == b {
      assert Obj(Flags(x)) == Obj(Flags(y));
      forall key | !Dropped(key)
        ensures (key in x <==> key in y) && (key in x ==> MembersAgree(key, x[key], y[key]))
      {
        assert key in a <==> key in x;
        assert key in b <==> key in y;
        if key in x { assert a[key] == b[key]; }
      }
    }
    if SameButSecrets(x, y) {
      forall key ensures (key in a <==> key in b) && (key in a ==> a[key] == b[key]) {
        if !Dropped(key) { assert key in x <==> key in y; }
      }
    }
  }

  // ---- paths ----

  /** One step into a value: a member of an object or an element of an array. */
  datatype Step = Key(name: string) | Nth(i: nat)

  type Path = seq<Step>

  function Into(v: Json, step: Step): Option<Json> {
    match step
    case Key(name) => if v.Obj? && name in v.fields then Some(v.fields[name]) else None
    case Nth(i) => if v.Arr? && i < |v.elements| then Some(v.elements[i]) else None
  }

  function Follow(v: Json, path: Path): Option<Json>
    decreases |path|
  {
    if path == [] then Some(v)
    else
      var w :- Into(v, path[0]);
      Follow(w, path[1..])
  }

  /** One path lies on, above or below the other. */
  predicate Related(p: Path, q: Path) {
    p <= q || q <= p
  }

  /** The secrets inside a member: the paths at which a secret value is present. */
  predicate MemberSecret(key: string, v: Json, q: Path) {
    match key
    case "login" => IsMember(v, {"password", "totp", "fido2Credentials"}, q)
    case "identity" => IsMember(v, {"ssn", "passportNumber", "licenseNumber"}, q)
    case "card" => IsMember(v, {"code"}, q) || IsLongNumber(v, q)
    case "fields" => IsHiddenValue(v, q)
    case _ => false
  }

  predicate IsMember(v: Json, keys: set<string>, q: Path) {
    |q| == 1 && q[0].Key? && q[0].name in keys && v.Obj? && q[0].name in v.fields
  }

  /** A string card number of more than four characters. */
  predicate IsLongNumber(v: Json, q: Path) {
    q == [Key("number")] && v.Obj? && LongNumber(v.fields)
  }

  predicate LongNumber(fields: Item) {
    "number" in fields && fields["number"].Str? && |fields["number"].text| > 4
  }

  /** The value of a hidden custom field. */
  predicate IsHiddenValue(v: Json, q: Path) {
    && |q| == 2 && q[0].Nth? && q[1] == Key("value")
    && v.Arr? && q[0].i < |v.elements| && HasHiddenValue(v.elements[q[0].i])
  }

  predicate HasHiddenValue(v: Json) {
    TypeOf(v) == Some(Int(1)) && "value" in v.fields
  }

  /** The secrets of an item. */
  predicate ItemSecret(item: Item, q: Path) {
    && q != [] && q[0].Key? && q[0].name in item
    && ((|q| == 1 && (q[0].name == "notes" || q[0].name == "passwordHistory"))
        || MemberSecret(q[0].name, item[q[0].name], q[1..]))
  }

  /** No secret lies on, above or below this path of a member. */
  ghost predicate ClearMember(key: string, v: Json, p: Path) {
    forall q: Path | MemberSecret(key, v, q) :: !Related(p, q)
  }

  ghost predicate Clear(item: Item, p: Path) {
    forall q: Path | ItemSecret(item, q) :: !Related(p, q)
  }

  lemma RelatedTails(p: Path, q: Path)
    requires p != [] && q != []
    ensures Related(p, q) <==> p[0] == q[0] && Related(p[1..], q[1..])
  {
    if p[0] == q[0] && Related(p[1..], q[1..]) {
      assert p == [p[0]] + p[1..] && q == [q[0]] + q[1..];
    }
  }

  lemma CutPath(v: Json, keys: set<string>, p: Path)
    requires Follow(v, p).Some?
    ensures Follow(Cut(v, keys), p) == Follow(v, p) <==> forall q: Path | IsMember(v, keys, q) :: !Related(p, q)
  {
    if v.Obj? {
      if p == [] {
        if Cut(v, keys) != v {
          var name :| name in v.fields && name in keys;
          assert IsMember(v, keys, [Key(name)]);
        } else {
          forall name | name in v.fields ensures name !in keys { assert name in v.fields - keys; }
        }
      } else {
        var name := p[0].name;
        if name in keys {
          assert IsMember(v, keys, [Key(name)]) && [Key(name)] <= p;
        } else {
          assert name in v.fields - keys;
          forall q: Path | IsMember(v, keys, q) ensures !Related(p, q) { RelatedTails(p, q); }
        }
      }
    }
  }

  lemma CutCardIs(v: Json)
    requires v.Obj?
    ensures CutCard(v) == Obj(ShortNumber(v.fields - {"code"}))
    ensures CutCard(v) == v <==> "code" !in v.fields && !LongNumber(v.fields)
  {
    var f := v.fields - {"code"};
    if "code" in v.fields {
      assert "code" !in ShortNumber(f);
    } else {
      assert f == v.fields;
      if LongNumber(v.fields) {
        assert |ShortNumber(f)["number"].text| == 4;
      }
    }
  }

  lemma CardPath(v: Json, p: Path)
    requires Follow(v, p).Some?
    ensures Follow(CutCard(v), p) == Follow(v, p) <==>
            forall q: Path | IsMember(v, {"code"}, q) || IsLongNumber(v, q) :: !Related(p, q)
  {
    if v.Obj? && p == [] {
      CardRoot(v);
    } else if v.Obj? {
      CardMember(v, p);
    }
  }

  lemma CardRoot(v: Json)
    requires v.Obj?
    ensures CutCard(v) == v <==> forall q: Path | IsMember(v, {"code"}, q) || IsLongNumber(v, q) :: !Related([], q)
  {
    CutCardIs(v);
    var (code, number) := ([Key("code")], [Key("number")]);
    assert "code" in v.fields ==> IsMember(v, {"code"}, code) && Related([], code);
    assert LongNumber(v.fields) ==> IsLongNumber(v, number) && Related([], number);
    forall q: Path | IsMember(v, {"code"}, q) ensures "code" in v.fields { }
  }

  lemma CardMember(v: Json, p: Path)
    requires v.Obj? && p != [] && Follow(v, p).Some?
    ensures Follow(CutCard(v), p) == Follow(v, p) <==>
            forall q: Path | IsMember(v, {"code"}, q) || IsLongNumber(v, q) :: !Related(p, q)
  {
    hide Follow, CutCard, IsMember, IsLongNumber, Related, LongNumber;
    MemberNamed(v, p);
    CardRelated(v, p);
    CardFollows(v, p);
  }

  lemma MemberNamed(v: Json, p: Path)
    requires v.Obj? && p != []
    ensures Follow(v, p).Some? ==> p[0].Key? && p[0].name in v.fields
    ensures p[0].Key? ==>
              Follow(v, p) == if p[0].name in v.fields then Follow(v.fields[p[0].name], p[1..]) else None
  {
  }

  /** The secret of a card that a path starts with. */
  predicate IntoCardSecret(v: Json, name: string)
    requires v.Obj?
  {
    name == "code" || (name == "number" && LongNumber(v.fields))
  }

  lemma CardRelated(v: Json, p: Path)
    requires v.Obj? && p != [] && p[0].Key? && p[0].name in v.fields
    ensures (forall q: Path | IsMember(v, {"code"}, q) || IsLongNumber(v, q) :: !Related(p, q)) <==>
            !IntoCardSecret(v, p[0].name)
  {
    forall q: Path | IsMember(v, {"code"}, q) || IsLongNumber(v, q)
      ensures Related(p, q) ==> IntoCardSecret(v, p[0].name)
    {
      RelatedTails(p, q);
    }
    if IntoCardSecret(v, p[0].name) {
      var q := [Key(p[0].name)];
      assert q <= p && Related(p, q);
      assert IsMember(v, {"code"}, q) || IsLongNumber(v, q);
    }
  }

  lemma CardFollows(v: Json, p: Path)
    requires v.Obj? && p != [] && p[0].Key? && p[0].name in v.fields && Follow(v, p).Some?
    ensures Follow(CutCard(v), p) == Follow(v, p) <==> !IntoCardSecret(v, p[0].name)
  {
    hide Follow;
    CutCardIs(v);
    MemberNamed(v, p);
    MemberNamed(CutCard(v), p);
    var name := p[0].name;
    if name == "number" && LongNumber(v.fields) {
      TextEnds(v.fields[name], p[1..]);
      TextEnds(CutCard(v).fields[name], p[1..]);
      assert |CutCard(v).fields[name].text| == 4;
    }
  }

  /** Nothing lies inside a text. */
  lemma TextEnds(v: Json, p: Path)
    requires v.Str?
    ensures Follow(v, p) == if p == [] then Some(v) else None
  {
  }

  lemma FieldPath(v: Json, p: Path)
    requires Follow(v, p).Some?
    ensures Follow(CutField(v), p) == Follow(v, p) <==> !(HasHiddenValue(v) && Related(p, [Key("value")]))
  {
    if Hidden(v) {
      if p == [] {
        if "value" in v.fields {
          assert "value" !in CutField(v).fields;
        } else {
          assert CutField(v).fields == v.fields;
        }
      } else {
        RelatedTails(p, [Key("value")]);
        assert [Key("value")][1..] == [];
      }
    }
  }

  lemma FieldsPath(v: Json, p: Path)
    requires Follow(v, p).Some?
    ensures Follow(CutFields(v), p) == Follow(v, p) <==> forall q: Path | IsHiddenValue(v, q) :: !Related(p, q)
  {
    if v.Arr? {
      if p == [] {
        if CutFields(v) == v {
          forall i | 0 <= i < |v.elements| ensures !IsHiddenValue(v, [Nth(i), Key("value")]) { NothingHidden(v, i); }
        } else {
          var i :| 0 <= i < |v.elements| && CutFields(v).elements[i] != v.elements[i];
          assert IsHiddenValue(v, [Nth(i), Key("value")]) by { HiddenCut(v.elements[i]); }
        }
      } else {
        var i := p[0].i;
        var e := v.elements[i];
        FieldPath(e, p[1..]);
        assert CutFields(v).elements[i] == CutField(e);
        var q' := [Nth(i), Key("value")];
        RelatedTails(p, q');
        assert q'[1..] == [Key("value")];
        assert HasHiddenValue(e) ==> IsHiddenValue(v, q');
        forall q: Path | IsHiddenValue(v, q) ensures Related(p, q) ==> q == q' { RelatedTails(p, q); }
      }
    }
  }

  lemma HiddenCut(e: Json)
    ensures CutField(e) != e <==> HasHiddenValue(e)
  {
    if Hidden(e) {
      if "value" in e.fields { assert "value" !in CutField(e).fields; } else { assert CutField(e).fields == e.fields; }
    }
  }

  lemma NothingHidden(v: Json, i: nat)
    requires v.Arr? && CutFields(v) == v && i < |v.elements|
    ensures !HasHiddenValue(v.elements[i])
  {
    assert CutFields(v).elements[i] == CutField(v.elements[i]);
    HiddenCut(v.elements[i]);
  }

  /** In a member, exactly the paths clear of its secrets keep their value. */
  lemma MemberPath(key: string, v: Json, p: Path)
    requires Follow(v, p).Some?
    ensures Follow(CutMember(key, v), p) == Follow(v, p) <==> ClearMember(key, v, p)
  {
    hide IsMember, IsLongNumber, IsHiddenValue, CutCard, CutFields, Cut, Related, Follow;
    CutPath(v, LOGIN_SECRETS, p);
    CutPath(v, IDENTITY_SECRETS, p);
    CardPath(v, p);
    FieldsPath(v, p);
  }

  /** Nothing is invented. */
  lemma MemberNothingNew(key: string, v: Json, p: Path)
    requires Follow(v, p).None?
    ensures Follow(CutMember(key, v), p).None?
  {
    if p != [] && key == "fields" && v.Arr? && p[0].Nth? && p[0].i < |v.elements| {
      var e := v.elements[p[0].i];
      assert CutFields(v).elements[p[0].i] == CutField(e);
      assert Follow(e, p[1..]).None?;
      if Hidden(e) && p[1..] != [] { assert Follow(e, p[1..]).None?; }
    }
  }

  /** Every path of an item, other than the record of what was removed: it keeps its value
      if no secret lies on, above or below it, loses or changes it if one does, and nothing
      appears where there was nothing. */
  lemma OthersUnchanged(item: Item, p: Path)
    requires p != [] && p[0] != Key("qsbwHeld")
    ensures Follow(Obj(item), p).Some? ==>
              (Follow(Obj(Redacted(item)), p) == Follow(Obj(item), p) <==> Clear(item, p))
    ensures Follow(Obj(item), p).None? ==> Follow(Obj(Redacted(item)), p).None?
  {
    hide MemberSecret, CutMember, Flags;
    if p[0].Key? && p[0].name in item {
      var key, v := p[0].name, item[p[0].name];
      if key == "notes" || key == "passwordHistory" {
        assert ItemSecret(item, [Key(key)]) && [Key(key)] <= p;
      } else {
        assert Redacted(item)[key] == CutMember(key, v);
        ClearInMember(item, p);
        if Follow(v, p[1..]).Some? {
          MemberPath(key, v, p[1..]);
        } else {
          MemberNothingNew(key, v, p[1..]);
        }
      }
    }
  }

  lemma ClearInMember(item: Item, p: Path)
    requires p != [] && p[0].Key? && p[0].name in item && p[0].name != "notes" && p[0].name != "passwordHistory"
    ensures Clear(item, p) <==> ClearMember(p[0].name, item[p[0].name], p[1..])
  {
    hide MemberSecret, Related;
    var key, v := p[0].name, item[p[0].name];
    if Clear(item, p) {
      forall q: Path | MemberSecret(key, v, q) ensures !Related(p[1..], q) {
        var whole := [p[0]] + q;
        assert whole[1..] == q;
        assert ItemSecret(item, whole);
        RelatedTails(p, whole);
      }
    }
    if ClearMember(key, v, p[1..]) {
      forall q: Path | ItemSecret(item, q) ensures !Related(p, q) { RelatedTails(p, q); }
    }
  }
}
