/** Base32 secrets, decoded twice: in the vault helper and in the panel. */
module Base32Model {
  import opened Base

  // ---- base32 ----

  const BASE32: string := "ABCDEFGHIJKLMNOPQRSTUVWXYZ234567"

  /** The 5-bit value of an alphabet character. */
  function Index(c: char): Option<nat> {
    if 'A' <= c <= 'Z' then Some(c as nat - 'A' as nat)
    else if '2' <= c <= '7' then Some(c as nat - '2' as nat + 26)
    else None
  }

  /** The first position of a character in a text, or the text's length. */
  function FirstOf(text: string, c: char): (at: nat)
    ensures at <= |text| && (at < |text| ==> text[at] == c)
    ensures forall i | 0 <= i < at :: text[i] != c
  {
    if text == "" || text[0] == c then 0 else 1 + FirstOf(text[1..], c)
  }

  lemma AlphabetIndex(at: nat)
    requires at < 32
    ensures Index(BASE32[at]) == Some(at)
  {
  }

  lemma IndexInAlphabet(c: char)
    requires Index(c).Some?
    ensures Index(c).value < 32 && BASE32[Index(c).value] == c
  {
  }

  /** The value of a character is where the search through the alphabet finds it. */
  lemma IndexIsPosition(c: char)
    ensures |BASE32| == 32
    ensures Index(c) == if FirstOf(BASE32, c) < 32 then Some(FirstOf(BASE32, c)) else None
  {
    hide Index;
    var at := FirstOf(BASE32, c);
    if at < 32 { AlphabetIndex(at); }
    if Index(c).Some? { IndexInAlphabet(c); }
  }

  function AsciiUpper(c: char): char {
    if 'a' <= c <= 'z' then c - 'a' + 'A' else c
  }

  /** The 5-bit groups: everything outside the alphabet is dropped. */
  function Groups(text: string): (g: seq<nat>)
    ensures |g| <= |text| && forall i | 0 <= i < |g| :: g[i] < 32
  {
    if text == [] then []
    else
      var front := Groups(text[..|text| - 1]);
      var v := Index(text[|text| - 1]);
      if v.Some? then front + [v.value] else front
  }

  function UpperAll(text: string): string {
    seq(|text|, i requires 0 <= i < |text| => AsciiUpper(text[i]))
  }

  /** The groups as one number, first group most significant. */
  function Value(groups: seq<nat>): nat {
    if groups == [] then 0 else Value(groups[..|groups| - 1]) * 32 + groups[|groups| - 1]
  }

  /** Shift right. */
  function Shr(v: nat, n: nat): nat {
    if n == 0 then v else Shr(v / 2, n - 1)
  }

  /** Byte `k` of the concatenated groups. */
  function ByteAt(groups: seq<nat>, k: nat): nat
    requires 8 * (k + 1) <= 5 * |groups|
  {
    Shr(Value(groups), 5 * |groups| - 8 * (k + 1)) % 256
  }

  /** All the whole bytes: floor(5n/8) of them. */
  function Bytes(groups: seq<nat>): seq<nat> {
    seq(5 * |groups| / 8, k requires 0 <= k < 5 * |groups| / 8 => ByteAt(groups, k))
  }

  lemma {:induction false} ShrFive(v: nat, g: nat, n: nat)
    requires g < 32
    ensures Shr(v * 32 + g, n + 5) == Shr(v, n)
  {
    var x := v * 32 + g;
    assert Shr(x, n + 5) == Shr(x / 2, n + 4) == Shr(x / 2 / 2, n + 3);
    assert Shr(x / 2 / 2, n + 3) == Shr(x / 2 / 2 / 2, n + 2) == Shr(x / 2 / 2 / 2 / 2, n + 1);
    assert Shr(x / 2 / 2 / 2 / 2, n + 1) == Shr(x / 2 / 2 / 2 / 2 / 2, n);
    assert x / 2 / 2 / 2 / 2 / 2 == v;
  }

  lemma HalvesOfMask(v: nat)
    ensures v % 0x1_0000 / 2 == v / 2 % 0x8000
  {
  }

  lemma HalvesOf15(v: nat)
    ensures v % 0x8000 / 2 == v / 2 % 0x4000
  {
  }

  lemma HalvesOf14(v: nat)
    ensures v % 0x4000 / 2 == v / 2 % 0x2000
  {
  }

  lemma HalvesOf13(v: nat)
    ensures v % 0x2000 / 2 == v / 2 % 0x1000
  {
  }

  lemma WholeBytes(n: nat, r: nat)
    ensures (n * 256 + r) % 256 == r % 256
  {
  }

  // A mask of at least eight bits keeps the low byte.

  lemma Mask16(v: nat)
    ensures v % 0x1_0000 % 256 == v % 256
  {
    WholeBytes(v / 0x1_0000 * 256, v % 0x1_0000);
  }

  lemma Mask15(v: nat)
    ensures v % 0x8000 % 256 == v % 256
  {
    WholeBytes(v / 0x8000 * 128, v % 0x8000);
  }

  lemma Mask14(v: nat)
    ensures v % 0x4000 % 256 == v % 256
  {
    WholeBytes(v / 0x4000 * 64, v % 0x4000);
  }

  lemma Mask13(v: nat)
    ensures v % 0x2000 % 256 == v % 256
  {
    WholeBytes(v / 0x2000 * 32, v % 0x2000);
  }

  lemma Mask12(v: nat)
    ensures v % 0x1000 % 256 == v % 256
  {
    WholeBytes(v / 0x1000 * 16, v % 0x1000);
  }

  /** Sixteen bits are enough to read a byte that starts at most four bits up. */
  lemma MaskedByte(v: nat, n: nat)
    requires n <= 4
    ensures Shr(v % 0x1_0000, n) % 256 == Shr(v, n) % 256
  {
    var x := Shr(v, n);
    Mask16(x);
    Mask15(x);
    Mask14(x);
    Mask13(x);
    Mask12(x);
    if n > 0 {
      HalvesOfMask(v);
      if n > 1 {
        HalvesOf15(v / 2);
        if n > 2 {
          HalvesOf14(v / 2 / 2);
          if n > 3 { HalvesOf13(v / 2 / 2 / 2); }
        }
      }
    }
    MaskedShift(v, n);
  }

  lemma MaskedShift(v: nat, n: nat)
    requires n <= 4
    requires v % 0x1_0000 / 2 == v / 2 % 0x8000 || n == 0
    requires v / 2 % 0x8000 / 2 == v / 2 / 2 % 0x4000 || n <= 1
    requires v / 2 / 2 % 0x4000 / 2 == v / 2 / 2 / 2 % 0x2000 || n <= 2
    requires v / 2 / 2 / 2 % 0x2000 / 2 == v / 2 / 2 / 2 / 2 % 0x1000 || n <= 3
    ensures Shr(v % 0x1_0000, n) == Shr(v, n) % (if n == 0 then 0x1_0000 else if n == 1 then 0x8000
                                    else if n == 2 then 0x4000 else if n == 3 then 0x2000 else 0x1000)
  {
    ShrSmall(v, n);
    ShrSmall(v % 0x1_0000, n);
  }

  lemma ShrSmall(v: nat, n: nat)
    requires n <= 4
    ensures Shr(v, n) == if n == 0 then v else if n == 1 then v / 2 else if n == 2 then v / 2 / 2
                         else if n == 3 then v / 2 / 2 / 2 else v / 2 / 2 / 2 / 2
  {
    if n > 0 {
      assert Shr(v, n) == Shr(v / 2, n - 1);
      if n > 1 {
        assert Shr(v / 2, n - 1) == Shr(v / 2 / 2, n - 2);
        if n > 2 {
          assert Shr(v / 2 / 2, n - 2) == Shr(v / 2 / 2 / 2, n - 3);
        }
      }
    }
  }

  lemma BytesGrow(groups: seq<nat>, g: nat, k: nat)
    requires g < 32 && 8 * (k + 1) <= 5 * |groups|
    ensures ByteAt(groups + [g], k) == ByteAt(groups, k)
  {
    assert (groups + [g])[..|groups|] == groups;
    ShrFive(Value(groups), g, 5 * |groups| - 8 * (k + 1));
  }

  /** The loop both programs run: characters outside the alphabet are skipped, and the
      accumulator is masked to 16 bits after every group. */
  method Accumulate(text: string) returns (out: seq<nat>)
    ensures out == Bytes(Groups(text))
    ensures |out| == 5 * |Groups(text)| / 8
  {
    hide Shr, Value, Index, FirstOf;
    out := [];
    ValueNone();
    var buffer, bits := 0, 0;
    for i := 0 to |text|
      invariant buffer == Value(Groups(text[..i])) % 0x1_0000
      invariant 0 <= bits < 8 && bits == 5 * |Groups(text[..i])| - 8 * |out|
      invariant forall k | 0 <= k < |out| :: out[k] == ByteAt(Groups(text[..i]), k)
    {
      assert text[..i + 1][..i] == text[..i];
      var index := FirstOf(BASE32, text[i]);
      IndexIsPosition(text[i]);
      if index == |BASE32| {
        continue;
      }
      ghost var seen := Groups(text[..i]);
      assert Groups(text[..i + 1]) == seen + [index];
      ValueOn(seen, index);
      forall k | 0 <= k < |out| ensures ByteAt(seen + [index], k) == ByteAt(seen, k) {
        BytesGrow(seen, index, k);
      }
      MaskedStep(Value(seen), index);
      buffer := (buffer * 32 + index) % 0x1_0000;
      bits := bits + 5;
      if bits >= 8 {
        bits := bits - 8;
        MaskedByte(Value(seen + [index]), bits);
        out := out + [Shr(buffer, bits) % 256];
      }
    }
    assert text[..|text|] == text;
  }

  lemma ValueNone()
    ensures Value([]) == 0
  {
  }

  lemma ValueOn(groups: seq<nat>, g: nat)
    ensures Value(groups + [g]) == Value(groups) * 32 + g
  {
    assert (groups + [g])[..|groups|] == groups;
  }

  lemma MaskedStep(v: nat, g: nat)
    ensures (v % 0x1_0000 * 32 + g) % 0x1_0000 == (v * 32 + g) % 0x1_0000
  {
    var q := v / 0x1_0000;
    assert v * 32 + g == (v % 0x1_0000 * 32 + g) + q * 32 * 0x1_0000;
  }

  // ---- texts and bytes ----

  function Utf8(c: char): (b: seq<byte>)
    ensures |b| >= 1 && (c < 128 as char ==> b == [c as byte])
    ensures c >= 128 as char ==> forall i | 0 <= i < |b| :: b[i] >= 0x80
  {
    var n := c as nat;
    if n < 0x80 then [n as byte]
    else if n < 0x800 then [(0xC0 + n / 64) as byte, (0x80 + n % 64) as byte]
    else if n < 0x1_0000 then [(0xE0 + n / 0x1000) as byte, (0x80 + n / 64 % 64) as byte, (0x80 + n % 64) as byte]
    else [(0xF0 + n / 0x4_0000) as byte, (0x80 + n / 0x1000 % 64) as byte, (0x80 + n / 64 % 64) as byte,
          (0x80 + n % 64) as byte]
  }

  function Utf8Text(text: string): seq<byte> {
    if text == [] then [] else Utf8Text(text[..|text| - 1]) + Utf8(text[|text| - 1])
  }

  /** Bytes as the characters of the same codes. */
  function ByteText(bytes: seq<byte>): string {
    seq(|bytes|, i requires 0 <= i < |bytes| => bytes[i] as char)
  }

  lemma {:induction false} GroupsOn(a: string, b: string)
    ensures Groups(a + b) == Groups(a) + Groups(b)
  {
    if b == [] {
      assert a + b == a;
    } else {
      GroupsOn(a, b[..|b| - 1]);
      assert (a + b)[..|a + b| - 1] == a + b[..|b| - 1];
    }
  }

  predicate NoLetters(text: string) {
    forall i | 0 <= i < |text| :: Index(text[i]).None?
  }

  lemma {:induction false} NoLettersNoGroups(text: string)
    ensures Groups(text) == [] <==> NoLetters(text)
  {
    if text != [] {
      var front := text[..|text| - 1];
      NoLettersNoGroups(front);
      assert forall i | 0 <= i < |front| :: front[i] == text[i];
    }
  }

  lemma UpperOn(a: string, b: string)
    ensures UpperAll(a + b) == UpperAll(a) + UpperAll(b)
  {
  }

  /** The groups of the bytes are those of the text: outside ASCII no byte is a letter. */
  lemma {:induction false} BytesHaveTheGroups(text: string)
    ensures Groups(UpperAll(ByteText(Utf8Text(text)))) == Groups(UpperAll(text))
  {
    hide Groups, UpperAll, Utf8;
    if text == [] {
      assert ByteText(Utf8Text(text)) == text;
    } else {
      var front, c := text[..|text| - 1], text[|text| - 1];
      BytesHaveTheGroups(front);
      var head, last := ByteText(Utf8Text(front)), ByteText(Utf8(c));
      assert ByteText(Utf8Text(text)) == head + last;
      assert text == front + [c];
      UpperOn(head, last);
      UpperOn(front, [c]);
      GroupsOn(UpperAll(head), UpperAll(last));
      GroupsOn(UpperAll(front), UpperAll([c]));
      OneCharGroups(c);
    }
  }

  lemma OneCharGroups(c: char)
    ensures Groups(UpperAll(ByteText(Utf8(c)))) == Groups(UpperAll([c]))
  {
    if c < 128 as char {
      assert ByteText(Utf8(c)) == [c];
    } else {
      NoLettersNoGroups(UpperAll(ByteText(Utf8(c))));
      NoLettersNoGroups(UpperAll([c]));
    }
  }

  /** In the vault helper: the bytes of the text, upper-cased if ASCII. The output never
      outgrows what was allocated for it. */
  method Base32(bytes: seq<byte>) returns (out: seq<nat>)
    ensures out == Bytes(Groups(UpperAll(ByteText(bytes))))
    ensures |out| <= |bytes| * 5 / 8
  {
    out := Accumulate(UpperAll(ByteText(bytes)));
  }

  // ---- full upper-casing ----

  /** Upper-casing of single characters that is plain ASCII upper-casing on ASCII. */
  ghost predicate UpperLaw(up: char -> string) {
    forall c | c < 128 as char :: up(c) == [AsciiUpper(c)]
  }

  function UpperText(text: string, up: char -> string): string {
    if text == [] then [] else UpperText(text[..|text| - 1], up) + up(text[|text| - 1])
  }

  /** In the panel: the text upper-cased by the language's own rules. */
  method DecodeBase32(text: string, up: char -> string) returns (out: seq<nat>)
    ensures out == Bytes(Groups(UpperText(text, up)))
  {
    out := Accumulate(UpperText(text, up));
  }

  predicate IsAscii(text: string) {
    forall i | 0 <= i < |text| :: text[i] < 128 as char
  }

  /** No character outside ASCII becomes a letter of the alphabet when upper-cased. */
  predicate NoStrays(text: string, up: char -> string) {
    forall i | 0 <= i < |text| :: text[i] >= 128 as char ==> NoLetters(up(text[i]))
  }

  /** How many groups the panel reads that the helper does not. */
  function Strays(text: string, up: char -> string): nat {
    if text == [] then 0
    else
      var c := text[|text| - 1];
      Strays(text[..|text| - 1], up) + if c >= 128 as char then |Groups(up(c))| else 0
  }

  /** One more character at the end of both upper-casings. */
  lemma GroupsGrow(front: string, c: char, up: char -> string)
    ensures Groups(UpperText(front + [c], up)) == Groups(UpperText(front, up)) + Groups(up(c))
    ensures Groups(UpperAll(front + [c])) == Groups(UpperAll(front)) + Groups(UpperAll([c]))
  {
    assert (front + [c])[..|front|] == front;
    GroupsOn(UpperText(front, up), up(c));
    UpperOn(front, [c]);
    GroupsOn(UpperAll(front), UpperAll([c]));
  }

  lemma {:induction false} StraysCounted(text: string, up: char -> string)
    requires UpperLaw(up)
    ensures |Groups(UpperText(text, up))| == |Groups(UpperAll(text))| + Strays(text, up)
    ensures Strays(text, up) == 0 ==> Groups(UpperText(text, up)) == Groups(UpperAll(text))
  {
    if text != [] {
      var front, c := text[..|text| - 1], text[|text| - 1];
      StraysCounted(front, up);
      StrayOf(c, up);
      GroupsGrow(front, c, up);
      assert text == front + [c];
    }
  }

  lemma {:induction false} StraysNone(text: string, up: char -> string)
    requires UpperLaw(up)
    ensures Strays(text, up) == 0 <==> NoStrays(text, up)
  {
    if text != [] {
      var front, c := text[..|text| - 1], text[|text| - 1];
      StraysNone(front, up);
      StrayOf(c, up);
      assert forall i | 0 <= i < |front| :: front[i] == text[i];
    }
  }

  lemma StrayOf(c: char, up: char -> string)
    requires UpperLaw(up)
    ensures c >= 128 as char ==> Groups(UpperAll([c])) == [] && (|Groups(up(c))| == 0 <==> NoLetters(up(c)))
    ensures c < 128 as char ==> Groups(up(c)) == Groups(UpperAll([c]))
  {
    NoLettersNoGroups(up(c));
    if c >= 128 as char {
      NoLettersNoGroups(UpperAll([c]));
    } else {
      assert UpperAll([c]) == up(c);
    }
  }

  // ---- when the decoded bytes are the same ----

  lemma {:induction false} ShrAdd(v: nat, m: nat, n: nat)
    ensures Shr(v, m + n) == Shr(Shr(v, m), n)
  {
    if m > 0 { ShrAdd(v / 2, m - 1, n); }
  }

  /** The bits that make up whole bytes, as one number. */
  function Whole(groups: seq<nat>): nat {
    Shr(Value(groups), 5 * |groups| % 8)
  }

  lemma ByteOfWhole(groups: seq<nat>, k: nat)
    requires k < 5 * |groups| / 8
    ensures Bytes(groups)[k] == Shr(Whole(groups), 8 * (5 * |groups| / 8 - 1 - k)) % 256
  {
    hide Shr, Value;
    var n := 5 * |groups|;
    ShrAdd(Value(groups), n % 8, 8 * (n / 8 - 1 - k));
    assert n - 8 * (k + 1) == n % 8 + 8 * (n / 8 - 1 - k);
  }

  lemma {:induction false} NothingAbove(groups: seq<nat>)
    requires forall i | 0 <= i < |groups| :: groups[i] < 32
    ensures Shr(Value(groups), 5 * |groups|) == 0
  {
    hide Shr;
    if groups == [] {
      assert Shr(0, 0) == 0 by { ShrNone(0); }
    } else {
      var front := groups[..|groups| - 1];
      NothingAbove(front);
      ShrFive(Value(front), groups[|groups| - 1], 5 * |front|);
    }
  }

  lemma ShrNone(v: nat)
    ensures Shr(v, 0) == v
  {
  }

  lemma ShrEight(v: nat, n: nat)
    ensures Shr(v, n + 8) == Shr(v / 256, n)
  {
    ShrAdd(v, 8, n);
    ShrAdd(v, 4, 4);
    ShrSmall(v, 4);
    ShrSmall(v / 2 / 2 / 2 / 2, 4);
    assert v / 2 / 2 / 2 / 2 == v / 16;
    assert v / 16 / 2 / 2 / 2 / 2 == v / 256;
  }

  /** A number of so many bytes is determined by them. */
  lemma {:induction false} BytesDetermine(v: nat, w: nat, n: nat)
    requires Shr(v, 8 * n) == 0 && Shr(w, 8 * n) == 0
    requires forall k | 0 <= k < n :: Shr(v, 8 * k) % 256 == Shr(w, 8 * k) % 256
    ensures v == w
  {
    hide Shr;
    ShrNone(v);
    ShrNone(w);
    if n > 0 {
      assert Shr(v, 8 * 0) % 256 == Shr(w, 8 * 0) % 256;
      ShrEight(v, 8 * (n - 1));
      ShrEight(w, 8 * (n - 1));
      forall k | 0 <= k < n - 1 ensures Shr(v / 256, 8 * k) % 256 == Shr(w / 256, 8 * k) % 256 {
        ShrEight(v, 8 * k);
        ShrEight(w, 8 * k);
        assert Shr(v, 8 * (k + 1)) % 256 == Shr(w, 8 * (k + 1)) % 256;
      }
      BytesDetermine(v / 256, w / 256, n - 1);
    }
  }

  ghost predicate AreGroups(groups: seq<nat>) {
    forall i | 0 <= i < |groups| :: groups[i] < 32
  }

  /** Equally many bytes are the same bytes exactly when their bits are the same number. */
  lemma SameBytes(a: seq<nat>, b: seq<nat>)
    requires AreGroups(a) && AreGroups(b) && 5 * |a| / 8 == 5 * |b| / 8
    ensures Bytes(a) == Bytes(b) <==> Whole(a) == Whole(b)
  {
    hide Shr, Value;
    var n := 5 * |a| / 8;
    forall k | 0 <= k < n
      ensures Bytes(a)[k] == Shr(Whole(a), 8 * (n - 1 - k)) % 256
      ensures Bytes(b)[k] == Shr(Whole(b), 8 * (n - 1 - k)) % 256
    {
      ByteOfWhole(a, k);
      ByteOfWhole(b, k);
    }
    if Bytes(a) == Bytes(b) {
      forall k | 0 <= k < n ensures Shr(Whole(a), 8 * k) % 256 == Shr(Whole(b), 8 * k) % 256 {
        assert Bytes(a)[n - 1 - k] == Bytes(b)[n - 1 - k];
      }
      WholeFits(a);
      WholeFits(b);
      BytesDetermine(Whole(a), Whole(b), n);
    }
  }

  lemma WholeFits(groups: seq<nat>)
    requires AreGroups(groups)
    ensures Shr(Whole(groups), 8 * (5 * |groups| / 8)) == 0
  {
    hide Shr, Value;
    var n := 5 * |groups|;
    NothingAbove(groups);
    ShrAdd(Value(groups), n % 8, 8 * (n / 8));
  }

  lemma {:induction false} ValueInjective(a: seq<nat>, b: seq<nat>)
    requires AreGroups(a) && AreGroups(b) && |a| == |b| && Value(a) == Value(b)
    ensures a == b
  {
    if a != [] {
      ValueInjective(a[..|a| - 1], b[..|b| - 1]);
      assert a == a[..|a| - 1] + [a[|a| - 1]] && b == b[..|b| - 1] + [b[|b| - 1]];
    }
  }

  lemma ShrSplit(v: nat, g: nat, w: nat, h: nat, r: nat)
    requires r <= 2 && g < 32 && h < 32
    ensures Shr(v * 32 + g, r) == Shr(w * 32 + h, r) <==> v == w && Shr(g, r) == Shr(h, r)
  {
    hide Shr;
    ShrParts(v, g, r);
    ShrParts(w, h, r);
  }

  lemma ShrParts(v: nat, g: nat, r: nat)
    requires r <= 2 && g < 32
    ensures Shr(v * 32 + g, r) == v * (if r == 0 then 32 else if r == 1 then 16 else 8) + Shr(g, r)
    ensures Shr(g, r) < if r == 0 then 32 else if r == 1 then 16 else 8
  {
    ShrSmall(v * 32 + g, r);
    ShrSmall(g, r);
    HalfOf(v * 16, g);
    HalfOf(v * 8, g / 2);
  }

  lemma HalfOf(v: nat, g: nat)
    ensures (v * 2 + g) / 2 == v + g / 2
  {
  }

  /** Dropping up to two bits compares all groups but the last, and the last without them. */
  lemma SameButSpare(a: seq<nat>, b: seq<nat>, r: nat)
    requires AreGroups(a) && AreGroups(b) && |a| == |b| > 0 && r <= 2
    ensures Shr(Value(a), r) == Shr(Value(b), r) <==>
            a[..|a| - 1] == b[..|b| - 1] && Shr(a[|a| - 1], r) == Shr(b[|b| - 1], r)
  {
    hide Shr;
    var front, back := a[..|a| - 1], b[..|b| - 1];
    ShrSplit(Value(front), a[|a| - 1], Value(back), b[|b| - 1], r);
    if Value(front) == Value(back) { ValueInjective(front, back); }
  }

  /** Every group is `x`, the last one apart from its low `r` bits. */
  predicate Repeats(tail: seq<nat>, x: nat, r: nat) {
    && (forall j | 0 <= j < |tail| - 1 :: tail[j] == x)
    && (tail != [] ==> Shr(tail[|tail| - 1], r) == Shr(x, r))
  }

  lemma {:induction false} ShiftedRepeats(tail: seq<nat>, x: nat, j: nat)
    requires tail != [] && ([x] + tail)[..|tail| - 1] == tail[..|tail| - 1] && j < |tail| - 1
    ensures tail[j] == x
  {
    assert tail[..|tail| - 1][j] == ([x] + tail)[..|tail| - 1][j];
    if j > 0 { ShiftedRepeats(tail, x, j - 1); }
  }

  /** Moving a tail up by one to make room for `x` changes nothing exactly if it repeats it. */
  lemma ShiftExact(tail: seq<nat>, x: nat, r: nat)
    requires tail != []
    ensures var shifted := ([x] + tail)[..|tail|];
            Repeats(tail, x, r) <==>
            shifted[..|tail| - 1] == tail[..|tail| - 1] && Shr(shifted[|tail| - 1], r) == Shr(tail[|tail| - 1], r)
  {
    hide Shr;
    var shifted := ([x] + tail)[..|tail|];
    assert shifted[..|tail| - 1] == ([x] + tail)[..|tail| - 1];
    if shifted[..|tail| - 1] == tail[..|tail| - 1] {
      forall j | 0 <= j < |tail| - 1 ensures tail[j] == x { ShiftedRepeats(tail, x, j); }
    }
  }

  /** One group put in somewhere leaves the bytes the same exactly if it falls within the
      bits that are dropped: at most two are dropped without it, and the groups after it
      repeat it, the last one apart from those bits. */
  lemma OneMoreExact(head: seq<nat>, x: nat, tail: seq<nat>)
    requires AreGroups(head) && AreGroups(tail) && x < 32
    ensures var r := 5 * |head + tail| % 8;
            Bytes(head + [x] + tail) == Bytes(head + tail) <==> r <= 2 && Repeats(tail, x, r)
  {
    hide Shr, Value, Repeats;
    var a, b := head + tail, head + [x] + tail;
    var n := |a|;
    var r := 5 * n % 8;
    if r > 2 {
      assert 5 * (n + 1) / 8 == 5 * n / 8 + 1;
    } else {
      assert 5 * (n + 1) / 8 == 5 * n / 8 && 5 * (n + 1) % 8 == r + 5;
      SameBytes(a, b);
      var last := b[n];
      ShrFive(Value(b[..n]), last, r);
      ValueOn(b[..n], last);
      assert b == b[..n] + [last];
      assert Whole(b) == Shr(Value(b[..n]), r);
      ShiftedTail(head, x, tail, r);
    }
  }

  lemma ShiftedTail(head: seq<nat>, x: nat, tail: seq<nat>, r: nat)
    requires AreGroups(head) && AreGroups(tail) && x < 32 && r <= 2
    ensures var a, b := head + tail, head + [x] + tail;
            Shr(Value(a), r) == Shr(Value(b[..|a|]), r) <==> Repeats(tail, x, r)
  {
    hide Shr, Value;
    var a, b := head + tail, head + [x] + tail;
    var n := |a|;
    if tail == [] {
      assert b[..n] == a;
    } else {
      var shifted := ([x] + tail)[..|tail|];
      assert b[..n] == head + shifted;
      SameButSpare(a, head + shifted, r);
      ShiftExact(tail, x, r);
      assert a[..n - 1] == head + tail[..|tail| - 1];
      assert (head + shifted)[..n - 1] == head + shifted[..|tail| - 1];
      AppendSame(head, tail[..|tail| - 1], shifted[..|tail| - 1]);
    }
  }

  lemma AppendSame(head: seq<nat>, a: seq<nat>, b: seq<nat>)
    ensures head + a == head + b <==> a == b
  {
    if head + a == head + b {
      assert a == (head + a)[|head|..] && b == (head + b)[|head|..];
    }
  }

  // ---- where the one stray group stands ----

  lemma {:induction false} UpperTextOn(a: string, b: string, up: char -> string)
    ensures UpperText(a + b, up) == UpperText(a, up) + UpperText(b, up)
    ensures Strays(a + b, up) == Strays(a, up) + Strays(b, up)
  {
    hide Groups;
    if b == [] {
      assert a + b == a;
    } else {
      UpperTextOn(a, b[..|b| - 1], up);
      assert (a + b)[..|a + b| - 1] == a + b[..|b| - 1];
    }
  }

  /** The only stray group of the text comes from its character `i`, and is lost: the bits
      it shifts out are dropped anyway, and the ones it shifts are the same. */
  ghost predicate LostAt(text: string, up: char -> string, i: nat) {
    && i < |text| && text[i] >= 128 as char
    && NoStrays(text[..i], up) && NoStrays(text[i + 1..], up) && |Groups(up(text[i]))| == 1
    && var spare := 5 * |Groups(UpperAll(text))| % 8;
       spare <= 2 && Repeats(Groups(UpperAll(text[i + 1..])), Groups(up(text[i]))[0], spare)
  }

  ghost predicate Lost(text: string, up: char -> string) {
    exists i :: 0 <= i < |text| && LostAt(text, up, i)
  }

  /** The text around a character outside ASCII whose neighbours bring no strays. */
  lemma Around(text: string, up: char -> string, i: nat)
    requires UpperLaw(up) && i < |text| && text[i] >= 128 as char
    ensures var front, back := text[..i], text[i + 1..];
            && Strays(text, up) == Strays(front, up) + |Groups(up(text[i]))| + Strays(back, up)
            && Groups(UpperAll(text)) == Groups(UpperAll(front)) + Groups(UpperAll(back))
            && Groups(UpperText(text, up)) ==
               Groups(UpperText(front, up)) + Groups(up(text[i])) + Groups(UpperText(back, up))
  {
    hide Groups, UpperAll;
    var front, c, back := text[..i], text[i], text[i + 1..];
    assert text == front + [c] + back;
    UpperTextOn(front + [c], back, up);
    UpperTextOn(front, [c], up);
    assert UpperText([c], up) == up(c) && Strays([c], up) == |Groups(up(c))| by { OneStray(c, up); }
    GroupsOn(UpperText(front + [c], up), UpperText(back, up));
    GroupsOn(UpperText(front, up), up(c));
    UpperOn(front + [c], back);
    UpperOn(front, [c]);
    GroupsOn(UpperAll(front + [c]), UpperAll(back));
    GroupsOn(UpperAll(front), UpperAll([c]));
    StrayOf(c, up);
  }

  lemma OneStray(c: char, up: char -> string)
    requires c >= 128 as char
    ensures UpperText([c], up) == up(c) && Strays([c], up) == |Groups(up(c))|
  {
    assert [c][..0] == [];
    assert UpperText([], up) == "" && Strays([], up) == 0;
  }

  lemma {:induction false} FindStray(text: string, up: char -> string) returns (i: nat)
    requires Strays(text, up) == 1
    ensures i < |text| && text[i] >= 128 as char && |Groups(up(text[i]))| == 1
  {
    var front, c := text[..|text| - 1], text[|text| - 1];
    if Strays(front, up) == 1 {
      i := FindStray(front, up);
    } else {
      i := |text| - 1;
    }
  }

  lemma LostBytes(text: string, up: char -> string, i: nat)
    requires UpperLaw(up) && i < |text| && text[i] >= 128 as char && |Groups(up(text[i]))| == 1
    requires Strays(text[..i], up) == 0 && Strays(text[i + 1..], up) == 0
    ensures Bytes(Groups(UpperText(text, up))) == Bytes(Groups(UpperAll(text))) <==> LostAt(text, up, i)
  {
    hide Groups, UpperAll, UpperText, Strays, Bytes, Repeats;
    var front, back := text[..i], text[i + 1..];
    Around(text, up, i);
    StraysCounted(front, up);
    StraysCounted(back, up);
    StraysNone(front, up);
    StraysNone(back, up);
    var x := Groups(up(text[i]))[0];
    assert Groups(up(text[i])) == [x];
    OneMoreExact(Groups(UpperAll(front)), x, Groups(UpperAll(back)));
  }

  /** The two decoders give the same bytes if and only if no character outside ASCII
      upper-cases to text with a letter of the alphabet, or a single one brings a single
      letter and that letter is lost. */
  lemma SameSecretExactly(text: string, up: char -> string)
    requires UpperLaw(up)
    ensures Bytes(Groups(UpperText(text, up))) == Bytes(Groups(UpperAll(ByteText(Utf8Text(text))))) <==>
            NoStrays(text, up) || Lost(text, up)
  {
    hide Groups, UpperAll, UpperText, Strays, Bytes, LostAt, NoStrays;
    BytesHaveTheGroups(text);
    StraysCounted(text, up);
    StraysNone(text, up);
    if Lost(text, up) {
      var i :| 0 <= i < |text| && LostAt(text, up, i);
      LostIsOne(text, up, i);
      LostBytes(text, up, i);
    }
    if Strays(text, up) == 1 {
      var i := FindStray(text, up);
      Around(text, up, i);
      LostBytes(text, up, i);
    } else if Strays(text, up) >= 2 {
      MoreBytes(Groups(UpperAll(text)), Groups(UpperText(text, up)));
    }
  }

  lemma LostIsOne(text: string, up: char -> string, i: nat)
    requires UpperLaw(up) && LostAt(text, up, i)
    ensures i < |text| && text[i] >= 128 as char && |Groups(up(text[i]))| == 1
    ensures Strays(text[..i], up) == 0 && Strays(text[i + 1..], up) == 0
  {
    hide Groups, Strays, NoStrays;
    StraysNone(text[..i], up);
    StraysNone(text[i + 1..], up);
  }

  lemma MoreBytes(a: seq<nat>, b: seq<nat>)
    requires |b| >= |a| + 2
    ensures |Bytes(b)| > |Bytes(a)|
  {
  }

  // ---- where the text comes from ----

  predicate IsHex(b: byte) {
    0x30 <= b <= 0x39 || 0x41 <= b <= 0x46 || 0x61 <= b <= 0x66
  }

  function HexValue(b: byte): (v: nat)
    requires IsHex(b)
    ensures v < 16
  {
    if b <= 0x39 then b as nat - 0x30 else if b <= 0x46 then b as nat - 0x41 + 10 else b as nat - 0x61 + 10
  }

  /** Form decoding, up to the check that the bytes are UTF-8: a plus is a space, a percent
      takes exactly two hex digits. */
  function FormDecode(raw: seq<byte>): Option<seq<byte>> {
    if raw == [] then Some([])
    else if raw[0] == 0x25 then
      if |raw| < 3 || !IsHex(raw[1]) || !IsHex(raw[2]) then None
      else
        var rest :- FormDecode(raw[3..]);
        Some([(HexValue(raw[1]) * 16 + HexValue(raw[2])) as byte] + rest)
    else
      var rest :- FormDecode(raw[1..]);
      Some([if raw[0] == 0x2B then 0x20 else raw[0]] + rest)
  }

  method FormDecodeBytes(raw: seq<byte>) returns (r: Option<seq<byte>>)
    ensures r == FormDecode(raw)
  {
    var out: seq<byte> := [];
    var i := 0;
    assert raw[0..] == raw;
    JoinedOn([], [], FormDecode(raw));
    while i < |raw|
      invariant 0 <= i <= |raw|
      invariant FormDecode(raw) == Joined(out, FormDecode(raw[i..]))
    {
      var rest := raw[i..];
      if raw[i] == 0x25 {
        if i + 2 >= |raw| || !IsHex(raw[i + 1]) || !IsHex(raw[i + 2]) {
          return None;
        }
        var b := (HexValue(raw[i + 1]) * 16 + HexValue(raw[i + 2])) as byte;
        assert rest[3..] == raw[i + 3..];
        JoinedOn(out, [b], FormDecode(raw[i + 3..]));
        out := out + [b];
        i := i + 3;
      } else {
        var b := if raw[i] == 0x2B then 0x20 else raw[i];
        assert rest[1..] == raw[i + 1..];
        JoinedOn(out, [b], FormDecode(raw[i + 1..]));
        out := out + [b];
        i := i + 1;
      }
    }
    assert raw[i..] == [] && out + [] == out;
    return Some(out);
  }

  function Joined(out: seq<byte>, rest: Option<seq<byte>>): Option<seq<byte>> {
    if rest.None? then None else Some(out + rest.value)
  }

  lemma JoinedOn(out: seq<byte>, one: seq<byte>, rest: Option<seq<byte>>)
    ensures Joined(out, Joined(one, rest)) == Joined(out + one, rest)
    ensures Joined([], rest) == rest
  {
    if rest.Some? {
      assert out + (one + rest.value) == out + one + rest.value;
      assert [] + rest.value == rest.value;
    }
  }

  function HexDigit(v: nat): (b: byte)
    requires v < 16
    ensures IsHex(b) && HexValue(b) == v
  {
    if v < 10 then (v + 0x30) as byte else (v - 10 + 0x61) as byte
  }

  /** Every byte written as a percent escape. */
  function Escaped(bytes: seq<byte>): seq<byte> {
    if bytes == [] then []
    else [0x25, HexDigit(bytes[0] as nat / 16), HexDigit(bytes[0] as nat % 16)] + Escaped(bytes[1..])
  }

  ghost predicate IsUtf8(bytes: seq<byte>) {
    exists text :: Utf8Text(text) == bytes
  }

  /** A form value: its bytes decoded, if they are UTF-8 text. */
  ghost function FormText(raw: seq<byte>): Option<seq<byte>> {
    var bytes := FormDecode(raw);
    if bytes.Some? && IsUtf8(bytes.value) then bytes else None
  }

  lemma HexBack(b: byte)
    ensures HexValue(HexDigit(b as nat / 16)) * 16 + HexValue(HexDigit(b as nat % 16)) == b as nat
    ensures HexDigit(b as nat / 16) < 0x80 && HexDigit(b as nat % 16) < 0x80
  {
  }

  lemma {:induction false} EscapesDecode(bytes: seq<byte>)
    ensures FormDecode(Escaped(bytes)) == Some(bytes)
    ensures forall i | 0 <= i < |Escaped(bytes)| :: Escaped(bytes)[i] < 0x80
  {
    hide FormDecode, HexDigit, HexValue, IsHex;
    if bytes == [] {
      NothingDecodes();
    } else {
      var rest := Escaped(bytes[1..]);
      EscapesDecode(bytes[1..]);
      EscapeDecodes(bytes[0], rest);
      HexBack(bytes[0]);
      assert [bytes[0]] + bytes[1..] == bytes;
      assert forall i | 3 <= i < |Escaped(bytes)| :: Escaped(bytes)[i] == rest[i - 3];
    }
  }

  lemma NothingDecodes()
    ensures FormDecode([]) == Some([])
  {
  }

  lemma EscapeDecodes(b: byte, rest: seq<byte>)
    requires FormDecode(rest).Some?
    ensures var escape := [0x25, HexDigit(b as nat / 16), HexDigit(b as nat % 16)];
            FormDecode(escape + rest) == Some([b] + FormDecode(rest).value)
  {
    HexBack(b);
    var e := [0x25, HexDigit(b as nat / 16), HexDigit(b as nat % 16)] + rest;
    assert e[3..] == rest && e[0] == 0x25;
    assert IsHex(e[1]) && IsHex(e[2]) && HexValue(e[1]) * 16 + HexValue(e[2]) == b as nat;
    OneEscape(e, b);
  }

  lemma OneEscape(e: seq<byte>, b: byte)
    requires |e| >= 3 && e[0] == 0x25 && IsHex(e[1]) && IsHex(e[2])
    requires HexValue(e[1]) * 16 + HexValue(e[2]) == b as nat && FormDecode(e[3..]).Some?
    ensures FormDecode(e) == Some([b] + FormDecode(e[3..]).value)
  {
  }

  /** Whatever the secret, an all-ASCII key yields it: the test for ASCII runs before the
      escapes are decoded. */
  lemma EverySecretArises(text: string)
    ensures var raw := Escaped(Utf8Text(text));
            FormText(raw) == Some(Utf8Text(text)) && forall i | 0 <= i < |raw| :: raw[i] < 0x80
  {
    EscapesDecode(Utf8Text(text));
  }

  /** Such a key on which the two differ: an escaped sharp s, which upper-cases to two
      letters of the alphabet in the panel and is dropped by the helper. */
  lemma SharpSDiffers(up: char -> string)
    requires UpperLaw(up) && up('\U{00DF}') == "SS"
    ensures FormText(Escaped(Utf8Text("\U{00DF}"))) == Some(Utf8Text("\U{00DF}"))
    ensures Bytes(Groups(UpperText("\U{00DF}", up))) == [148]
    ensures Bytes(Groups(UpperAll(ByteText(Utf8Text("\U{00DF}"))))) == []
  {
    hide Bytes, Groups, UpperText, UpperAll, Utf8Text, ByteText, FormText, Escaped;
    EverySecretArises("\U{00DF}");
    SharpSGroups(up);
    TwoGroups();
  }

  lemma SharpSGroups(up: char -> string)
    requires UpperLaw(up) && up('\U{00DF}') == "SS"
    ensures Groups(UpperText("\U{00DF}", up)) == [18, 18]
    ensures Groups(UpperAll(ByteText(Utf8Text("\U{00DF}")))) == []
  {
    var text := "\U{00DF}";
    BytesHaveTheGroups(text);
    NoLettersNoGroups(UpperAll(text));
    assert text[..0] == "";
    assert UpperText(text, up) == "SS";
    assert "SS"[..1] == "S" && "S"[..0] == "";
    assert Groups("") == [] && Groups("S") == [18];
  }

  lemma TwoGroups()
    ensures Bytes([18, 18]) == [148] && Bytes([]) == []
  {
    assert [18, 18] == [18] + [18] && [18] == [] + [18];
    ValueNone();
    ValueOn([], 18);
    ValueOn([18], 18);
    ShrSmall(594, 2);
  }

  /** And any number on which they agree all the same: a key that leaves at most two bits
      over, and a long s after it, which upper-cases to one letter. */
  lemma LongSIsLost(front: string, up: char -> string)
    requires UpperLaw(up) && up('\U{017F}') == "S"
    requires IsAscii(front) && 5 * |Groups(UpperAll(front))| % 8 <= 2
    ensures var text := front + "\U{017F}";
            && !NoStrays(text, up)
            && Bytes(Groups(UpperText(text, up))) == Bytes(Groups(UpperAll(ByteText(Utf8Text(text)))))
  {
    var text := front + "\U{017F}";
    var i := |front|;
    assert text[i] == '\U{017F}' && text[..i] == front && text[i + 1..] == "";
    assert "S"[..0] == "" && Groups("S") == [18];
    assert Index("S"[0]).Some?;
    LongSAdds(front);
    hide Groups, UpperAll, Bytes, Utf8Text, UpperText;
    assert LostAt(text, up, i);
    SameSecretExactly(text, up);
  }

  lemma LongSAdds(front: string)
    ensures Groups(UpperAll(front + "\U{017F}")) == Groups(UpperAll(front)) && Groups(UpperAll("")) == []
  {
    UpperOn(front, "\U{017F}");
    GroupsOn(UpperAll(front), UpperAll("\U{017F}"));
    NoLettersNoGroups(UpperAll("\U{017F}"));
  }
}
