/** Picking one load's payload out of the FIFO: the line accumulator and its filter. */
module FifoModel {
  import opened Base
  import opened KeyStoreModel
  import opened LengthPrefix

  const NEWLINE: byte := 0x0A

  // ---- the filter ----

  predicate HexDigit(b: byte) {
    0x30 <= b <= 0x39 || 0x41 <= b <= 0x46 || 0x61 <= b <= 0x66
  }

  predicate ValidNonce(nonce: seq<byte>) {
    |nonce| == 32 && forall i | 0 <= i < 32 :: HexDigit(nonce[i])
  }

  /** The opening of a payload for this load: `{"loadId":"`, the nonce and a quote. */
  function Marker(nonce: seq<byte>): seq<byte> {
    [0x7B, 0x22, 0x6C, 0x6F, 0x61, 0x64, 0x49, 0x64, 0x22, 0x3A, 0x22] + nonce + [0x22]
  }

  predicate MarkerAt(line: seq<byte>, marker: seq<byte>, at: nat) {
    at + |marker| <= |line| && line[at..at + |marker|] == marker
  }

  /** The first window equal to `marker`, from `at` on. */
  function FindMarker(line: seq<byte>, marker: seq<byte>, at: nat): (r: Option<nat>)
    ensures r.Some? ==> r.value >= at && MarkerAt(line, marker, r.value)
    ensures r.Some? ==> forall k | at <= k < r.value :: !MarkerAt(line, marker, k)
    ensures r.None? ==> forall k | at <= k :: !MarkerAt(line, marker, k)
    decreases |line| - at
  {
    if at + |marker| > |line| then None
    else if line[at..at + |marker|] == marker then Some(at)
    else FindMarker(line, marker, at + 1)
  }

  /** Which lines name this load; `names` is what parsing a line as JSON decides. */
  datatype Filter = Filter(nonce: seq<byte>, names: seq<byte> -> bool)

  /** Where this load's payload starts in a line. */
  function Locate(f: Filter, line: seq<byte>): (r: Option<nat>)
    ensures r.Some? ==> r.value <= |line| && f.names(line[r.value..])
  {
    if f.names(line) then
      assert line[0..] == line;
      Some(0)
    else
      var start :- FindMarker(line, Marker(f.nonce), 0);
      if start > 0 && f.names(line[start..]) then Some(start) else None
  }

  /** The opening brace of the marker occurs nowhere else in it. */
  lemma OneBrace(nonce: seq<byte>, k: nat)
    requires ValidNonce(nonce) && 0 < k < |Marker(nonce)|
    ensures Marker(nonce)[k] != 0x7B
  {
    if 11 <= k < 43 {
      assert Marker(nonce)[k] == nonce[k - 11];
      assert HexDigit(nonce[k - 11]);
    }
  }

  lemma StraddleMismatch(nonce: seq<byte>, fragment: seq<byte>, payload: seq<byte>, at: nat)
    requires ValidNonce(nonce) && Marker(nonce) <= payload
    requires at < |fragment| < at + |Marker(nonce)| <= |fragment + payload|
    ensures (fragment + payload)[at..at + |Marker(nonce)|] != Marker(nonce)
  {
    var m := Marker(nonce);
    var k := |fragment| - at;
    OneBrace(nonce, k);
    assert (fragment + payload)[at..at + |m|][k] == payload[0] == m[0];
  }

  /** A marker cannot straddle the end of a fragment and the payload behind it. */
  lemma NoStraddle(nonce: seq<byte>, fragment: seq<byte>, payload: seq<byte>, at: nat)
    requires ValidNonce(nonce) && Marker(nonce) <= payload
    requires at < |fragment| && MarkerAt(fragment + payload, Marker(nonce), at)
    ensures MarkerAt(fragment, Marker(nonce), at)
  {
    var m := Marker(nonce);
    var line := fragment + payload;
    if at + |m| > |fragment| {
      StraddleMismatch(nonce, fragment, payload, at);
      assert false;
    }
    assert fragment[at..at + |m|] == line[at..at + |m|];
  }

  /** A payload behind a fragment that lacks this load's marker is located exactly at its
      own start, unless the joined line already reads as a payload itself. */
  lemma LocatedExactly(f: Filter, fragment: seq<byte>, payload: seq<byte>)
    requires ValidNonce(f.nonce) && fragment != []
    requires Marker(f.nonce) <= payload && f.names(payload)
    requires forall k :: !MarkerAt(fragment, Marker(f.nonce), k)
    ensures Locate(f, fragment + payload) == Some(|fragment|) <==> !f.names(fragment + payload)
    ensures f.names(fragment + payload) ==> Locate(f, fragment + payload) == Some(0)
  {
    var line := fragment + payload;
    var m := Marker(f.nonce);
    assert line[|fragment|..] == payload;
    assert line[|fragment|..|fragment| + |m|] == payload[..|m|] == m;
    assert MarkerAt(line, m, |fragment|);
    forall k | 0 <= k < |fragment| ensures !MarkerAt(line, m, k) {
      if MarkerAt(line, m, k) {
        NoStraddle(f.nonce, fragment, payload, k);
        assert false;
      }
    }
    var start := FindMarker(line, m, 0);
    assert start.Some? && start.value == |fragment|;
  }

  // ---- lines ----

  /** The position of the first newline, or the length. */
  function LineEnd(s: seq<byte>): (n: nat)
    ensures n <= |s| && (n < |s| ==> s[n] == NEWLINE)
    ensures forall i | 0 <= i < n :: s[i] != NEWLINE
  {
    if s == [] || s[0] == NEWLINE then 0 else 1 + LineEnd(s[1..])
  }

  function TakeLine(f: Filter, line: seq<byte>): Option<seq<byte>> {
    if |line| > MAX_FILTERED_BYTES then None
    else
      var start :- Locate(f, line);
      Some(line[start..])
  }

  /** The first newline-terminated line within the cap that the filter accepts. */
  function FirstAccepted(f: Filter, stream: seq<byte>): Option<seq<byte>> {
    var n := LineEnd(stream);
    if n == |stream| then None
    else
      var taken := TakeLine(f, stream[..n]);
      if taken.Some? then taken else FirstAccepted(f, stream[n + 1..])
  }

  /** What follows the last newline. */
  function Tail(stream: seq<byte>): seq<byte> {
    var n := LineEnd(stream);
    if n == |stream| then stream else Tail(stream[n + 1..])
  }

  // ---- which line it is ----

  /** Thirty-two hexadecimal digits. */
  predicate IsNonce(nonce: seq<byte>) {
    && |nonce| == 32
    && forall i | 0 <= i < 32 ::
         var c := nonce[i] as char;
         '0' <= c <= '9' || 'A' <= c <= 'F' || 'a' <= c <= 'f'
  }

  lemma NonceExact(nonce: seq<byte>)
    ensures ValidNonce(nonce) <==> IsNonce(nonce)
  {
    if IsNonce(nonce) {
      forall i | 0 <= i < 32 ensures HexDigit(nonce[i]) {
        var c := nonce[i] as char;
        assert '0' <= c <= '9' || 'A' <= c <= 'F' || 'a' <= c <= 'f';
      }
    }
  }

  /** The payload of this load begins here by its looks. */
  predicate BeginsAt(line: seq<byte>, nonce: seq<byte>, at: nat) {
    at <= |line| && Ascii("{\"loadId\":\"") + nonce + Ascii("\"") <= line[at..]
  }

  lemma MarkerIs(line: seq<byte>, nonce: seq<byte>, at: nat)
    ensures MarkerAt(line, Marker(nonce), at) <==> BeginsAt(line, nonce, at)
  {
    var text := "{\"loadId\":\"";
    assert |text| == 11 && Ascii(text) == [0x7B, 0x22, 0x6C, 0x6F, 0x61, 0x64, 0x49, 0x64, 0x22, 0x3A, 0x22];
    assert Ascii("\"") == [0x22];
    if at <= |line| && |Marker(nonce)| <= |line[at..]| {
      assert line[at..][..|Marker(nonce)|] == line[at..at + |Marker(nonce)|];
    }
  }

  /** A line of at most 8 MiB gives its load's payload: the whole of it if that names the
      load, or else all from the first place a payload begins, if that is behind the start
      and names it. */
  ghost predicate Gives(f: Filter, line: seq<byte>, payload: seq<byte>) {
    && |line| <= 8_388_608
    && if f.names(line) then payload == line
       else exists at: nat :: GivesFrom(f, line, at) && payload == line[at..]
  }

  ghost predicate GivesFrom(f: Filter, line: seq<byte>, at: nat) {
    && 0 < at <= |line| && BeginsAt(line, f.nonce, at) && f.names(line[at..])
    && forall k: nat | k < at :: !BeginsAt(line, f.nonce, k)
  }

  lemma TakeLineExact(f: Filter, line: seq<byte>, payload: seq<byte>)
    ensures TakeLine(f, line) == Some(payload) <==> Gives(f, line, payload)
  {
    hide Marker, BeginsAt;
    forall k: nat ensures MarkerAt(line, Marker(f.nonce), k) <==> BeginsAt(line, f.nonce, k) {
      MarkerIs(line, f.nonce, k);
    }
    assert line[0..] == line;
    var start := FindMarker(line, Marker(f.nonce), 0);
    if start.Some? && start.value > 0 && f.names(line[start.value..]) {
      LocatedInside(f, line, start.value);
    }
    forall at: nat | GivesFrom(f, line, at) ensures start == Some(at) {
      assert MarkerAt(line, Marker(f.nonce), at);
    }
  }

  lemma LocatedInside(f: Filter, line: seq<byte>, at: nat)
    requires 0 < at && MarkerAt(line, Marker(f.nonce), at) && f.names(line[at..])
    requires forall k | 0 <= k < at :: !MarkerAt(line, Marker(f.nonce), k)
    ensures GivesFrom(f, line, at)
  {
    hide Marker, BeginsAt;
    forall k: nat | k <= at ensures MarkerAt(line, Marker(f.nonce), k) <==> BeginsAt(line, f.nonce, k) {
      MarkerIs(line, f.nonce, k);
    }
  }

  /** From here to there is one line, ended by a newline. */
  predicate IsLine(stream: seq<byte>, a: nat, b: nat) {
    && a <= b < |stream| && stream[b] == 0x0A && (a > 0 ==> stream[a - 1] == 0x0A)
    && forall i | a <= i < b :: stream[i] != 0x0A
  }

  ghost predicate GivesSome(f: Filter, line: seq<byte>) {
    exists payload :: Gives(f, line, payload)
  }

  /** This is the first line that gives anything. */
  ghost predicate FirstGiving(f: Filter, stream: seq<byte>, a: nat, b: nat, payload: seq<byte>) {
    && IsLine(stream, a, b) && Gives(f, stream[a..b], payload)
    && forall x: nat, y: nat | IsLine(stream, x, y) && x < a :: !GivesSome(f, stream[x..y])
  }

  /** Behind the first line, the lines are those of the rest. */
  lemma LinesShift(stream: seq<byte>, n: nat, a: nat, b: nat)
    requires LineEnd(stream) == n < |stream|
    ensures var rest := stream[n + 1..];
            && (IsLine(rest, a, b) <==> IsLine(stream, a + n + 1, b + n + 1))
            && (IsLine(rest, a, b) ==> stream[a + n + 1..b + n + 1] == rest[a..b])
    ensures IsLine(stream, a, b) ==> (a == 0 && b == n) || a >= n + 1
  {
    var rest := stream[n + 1..];
    assert forall i | 0 <= i < |rest| :: rest[i] == stream[i + n + 1];
    if IsLine(stream, a + n + 1, b + n + 1) {
      forall i | a <= i < b ensures rest[i] != 0x0A { assert stream[i + n + 1] != 0x0A; }
      if a > 0 { assert rest[a - 1] == stream[a + n]; }
    }
    if IsLine(rest, a, b) {
      forall i | a + n + 1 <= i < b + n + 1 ensures stream[i] != 0x0A { assert rest[i - n - 1] != 0x0A; }
    }
  }

  /** What is read is the payload of the first line that gives one, and nothing is read only
      if no line gives any. */
  lemma {:induction false} FirstAcceptedExact(f: Filter, stream: seq<byte>)
    ensures var r := FirstAccepted(f, stream);
            && (r.Some? ==> exists a: nat, b: nat :: FirstGiving(f, stream, a, b, r.value))
            && (r.None? ==> forall a: nat, b: nat | IsLine(stream, a, b) :: !GivesSome(f, stream[a..b]))
    decreases |stream|
  {
    hide TakeLine, Gives;
    var n := LineEnd(stream);
    if n < |stream| {
      var first, rest := stream[..n], stream[n + 1..];
      assert stream[0..n] == first;
      TakenOrNot(f, first);
      if TakeLine(f, first).Some? {
        assert FirstGiving(f, stream, 0, n, TakeLine(f, first).value);
      } else {
        FirstAcceptedExact(f, rest);
        if FirstAccepted(f, rest).Some? {
          var payload := FirstAccepted(f, rest).value;
          var a: nat, b: nat :| FirstGiving(f, rest, a, b, payload);
          RestGives(f, stream, n, a, b, payload);
        } else {
          forall a: nat, b: nat | IsLine(stream, a, b) ensures !GivesSome(f, stream[a..b]) {
            RestGivesNone(f, stream, n, a, b);
          }
        }
      }
    }
  }

  lemma TakenOrNot(f: Filter, line: seq<byte>)
    ensures TakeLine(f, line).Some? ==> Gives(f, line, TakeLine(f, line).value)
    ensures TakeLine(f, line).None? ==> !GivesSome(f, line)
  {
    hide TakeLine, Gives;
    if TakeLine(f, line).Some? { TakeLineExact(f, line, TakeLine(f, line).value); }
    forall payload | Gives(f, line, payload) ensures TakeLine(f, line).Some? { TakeLineExact(f, line, payload); }
  }

  lemma RestGives(f: Filter, stream: seq<byte>, n: nat, a: nat, b: nat, payload: seq<byte>)
    requires LineEnd(stream) == n < |stream| && !GivesSome(f, stream[..n])
    requires FirstGiving(f, stream[n + 1..], a, b, payload)
    ensures FirstGiving(f, stream, a + n + 1, b + n + 1, payload)
  {
    hide Gives, GivesSome, LineEnd;
    LinesShift(stream, n, a, b);
    forall x: nat, y: nat | IsLine(stream, x, y) && x < a + n + 1 ensures !GivesSome(f, stream[x..y]) {
      ShiftedGives(f, stream, n, x, y);
    }
  }

  lemma RestGivesNone(f: Filter, stream: seq<byte>, n: nat, x: nat, y: nat)
    requires LineEnd(stream) == n < |stream| && !GivesSome(f, stream[..n]) && IsLine(stream, x, y)
    requires var rest := stream[n + 1..]; forall a: nat, b: nat | IsLine(rest, a, b) :: !GivesSome(f, rest[a..b])
    ensures !GivesSome(f, stream[x..y])
  {
    hide Gives, GivesSome, LineEnd;
    ShiftedGives(f, stream, n, x, y);
  }

  /** A line behind the first gives what it gives in the rest; the first gives nothing. */
  lemma ShiftedGives(f: Filter, stream: seq<byte>, n: nat, x: nat, y: nat)
    requires LineEnd(stream) == n < |stream| && !GivesSome(f, stream[..n]) && IsLine(stream, x, y)
    ensures x >= n + 1 ==> y >= n + 1 && IsLine(stream[n + 1..], x - n - 1, y - n - 1)
    ensures GivesSome(f, stream[x..y]) ==> x >= n + 1 && GivesSome(f, stream[n + 1..][x - n - 1..y - n - 1])
  {
    hide Gives, GivesSome, LineEnd;
    Shifted(stream, n, x, y);
    assert stream[0..n] == stream[..n];
  }

  lemma Shifted(stream: seq<byte>, n: nat, x: nat, y: nat)
    requires LineEnd(stream) == n < |stream| && IsLine(stream, x, y)
    ensures || (x == 0 && y == n)
            || (x >= n + 1 && IsLine(stream[n + 1..], x - n - 1, y - n - 1)
                && stream[x..y] == stream[n + 1..][x - n - 1..y - n - 1])
  {
    LinesShift(stream, n, x, y);
    if x >= n + 1 { LinesShift(stream, n, x - n - 1, y - n - 1); }
  }

  lemma LineEndIs(s: seq<byte>, n: nat)
    requires n <= |s| && (n < |s| ==> s[n] == NEWLINE)
    requires forall i | 0 <= i < n :: s[i] != NEWLINE
    ensures LineEnd(s) == n
  {
    var m := LineEnd(s);
    assert m < |s| ==> s[m] == NEWLINE;
    assert n < |s| ==> s[n] == NEWLINE;
  }

  /** What came before the last newline was refused, so only the unfinished line matters. */
  lemma {:induction false} OnlyTheTail(f: Filter, seen: seq<byte>, more: seq<byte>)
    requires FirstAccepted(f, seen).None?
    ensures FirstAccepted(f, seen + more) == FirstAccepted(f, Tail(seen) + more)
    ensures Tail(seen + more) == Tail(Tail(seen) + more)
    decreases |seen|
  {
    hide TakeLine;
    var n := LineEnd(seen);
    if n < |seen| {
      LineEndIs(seen + more, n);
      assert (seen + more)[..n] == seen[..n];
      assert (seen + more)[n + 1..] == seen[n + 1..] + more;
      OnlyTheTail(f, seen[n + 1..], more);
    }
  }

  lemma {:induction false} TailUnended(s: seq<byte>)
    ensures LineEnd(Tail(s)) == |Tail(s)|
    decreases |s|
  {
    var n := LineEnd(s);
    if n < |s| { TailUnended(s[n + 1..]); }
  }

  /** An unfinished line goes on. */
  lemma Unfinished(f: Filter, line: seq<byte>, part: seq<byte>)
    requires LineEnd(line) == |line| && LineEnd(part) == |part|
    ensures FirstAccepted(f, line + part).None? && Tail(line + part) == line + part
  {
    LineEndIs(line + part, |line + part|);
  }

  /** A line ends: it is taken, or what follows it decides. */
  lemma Finished(f: Filter, line: seq<byte>, part: seq<byte>, rest: seq<byte>)
    requires LineEnd(line) == |line| && LineEnd(part) == |part|
    ensures FirstAccepted(f, line + (part + [NEWLINE] + rest)) ==
            if TakeLine(f, line + part).Some? then TakeLine(f, line + part) else FirstAccepted(f, rest)
    ensures Tail(line + (part + [NEWLINE] + rest)) == Tail(rest)
  {
    var s := line + (part + [NEWLINE] + rest);
    var n := |line| + |part|;
    assert s == line + part + [NEWLINE] + rest;
    forall i | 0 <= i < n ensures s[i] != NEWLINE {
      assert s[i] == if i < |line| then line[i] else part[i - |line|];
    }
    LineEndIs(s, n);
    assert s[..n] == line + part;
    assert s[n + 1..] == rest;
    hide TakeLine, LineEnd;
  }

  // ---- the accumulator ----

  predicate Keeps(line: seq<byte>, oversized: bool, tail: seq<byte>) {
    if oversized then |tail| > MAX_FILTERED_BYTES else line == tail && |tail| <= MAX_FILTERED_BYTES
  }

  /** Nothing seen so far was this load's, and the unfinished line is kept unless it has
      already outgrown the cap. */
  predicate Holds(f: Filter, line: seq<byte>, oversized: bool, seen: seq<byte>) {
    FirstAccepted(f, seen).None? && Keeps(line, oversized, Tail(seen))
  }

  lemma PartSeen(f: Filter, line: seq<byte>, oversized: bool, seen: seq<byte>, part: seq<byte>)
    requires FirstAccepted(f, seen).None? && LineEnd(part) == |part| && Keeps(line, oversized, Tail(seen) + part)
    ensures Holds(f, line, oversized, seen + part)
  {
    hide FirstAccepted, Tail;
    TailUnended(seen);
    Unfinished(f, Tail(seen), part);
    OnlyTheTail(f, seen, part);
  }

  lemma LineSeen(f: Filter, line: seq<byte>, oversized: bool, seen: seq<byte>, part: seq<byte>, rest: seq<byte>)
    requires FirstAccepted(f, seen).None? && LineEnd(part) == |part| && Keeps(line, oversized, Tail(seen) + part)
    ensures var r := if oversized then None else TakeLine(f, line);
            if r.Some? then FirstAccepted(f, seen + (part + [NEWLINE] + rest)) == r
            else Holds(f, [], false, seen + (part + [NEWLINE]))
  {
    var empty: seq<byte> := [];
    assert FirstAccepted(f, empty).None? && Tail(empty) == empty;
    hide FirstAccepted, Tail, Locate;
    TailUnended(seen);
    Finished(f, Tail(seen), part, rest);
    OnlyTheTail(f, seen, part + [NEWLINE] + rest);
    Finished(f, Tail(seen), part, empty);
    assert part + [NEWLINE] + empty == part + [NEWLINE];
    OnlyTheTail(f, seen, part + [NEWLINE]);
  }

  class PayloadAccumulator {
    const filter: Filter
    var line: seq<byte>
    var oversized: bool
    ghost var seen: seq<byte>   // everything pushed so far

    ghost predicate Valid()
      reads this
    {
      Holds(filter, line, oversized, seen)
    }

    constructor (f: Filter)
      ensures Valid() && filter == f && seen == []
    {
      filter, line, oversized, seen := f, [], false, [];
    }

    /** However the stream is cut into chunks, a push finds what the stream so far has. */
    method Push(chunk: seq<byte>) returns (r: Option<seq<byte>>)
      requires Valid()
      modifies this
      ensures r == FirstAccepted(filter, old(seen) + chunk)
      ensures r.None? ==> Valid() && seen == old(seen) + chunk
    {
      hide FirstAccepted, Tail, TakeLine;
      var rest := chunk;
      while rest != []
        invariant Valid() && seen + rest == old(seen) + chunk
        decreases |rest|
      {
        var n := LineEnd(rest);
        var part := rest[..n];
        var ends := n < |rest|;
        LineEndIs(part, n);
        ghost var whole := rest;
        rest := if ends then rest[n + 1..] else [];
        Append(part);
        if ends {
          assert whole == part + [NEWLINE] + rest;
          LineSeen(filter, line, oversized, seen, part, rest);
          r := if oversized then None else TakeLine(filter, line);
          line, oversized := [], false;
          if r.Some? {
            return;
          }
          assert seen + whole == seen + (part + [NEWLINE]) + rest;
          seen := seen + (part + [NEWLINE]);
        } else {
          PartSeen(filter, line, oversized, seen, part);
          seen := seen + part;
        }
      }
      assert seen + [] == seen;
      return None;
    }

    method Append(part: seq<byte>)
      requires Valid()
      modifies this`line, this`oversized
      ensures Keeps(line, oversized, Tail(seen) + part)
    {
      if oversized {
        return;
      }
      if |line| + |part| > MAX_FILTERED_BYTES {
        line, oversized := [], true;
      } else {
        line := line + part;
      }
    }
  }

  function Flatten(chunks: seq<seq<byte>>): seq<byte> {
    if chunks == [] then [] else Flatten(chunks[..|chunks| - 1]) + chunks[|chunks| - 1]
  }

  /** Once found, found whatever follows. */
  lemma {:induction false} FoundStays(f: Filter, stream: seq<byte>, more: seq<byte>)
    requires FirstAccepted(f, stream).Some?
    ensures FirstAccepted(f, stream + more) == FirstAccepted(f, stream)
    decreases |stream|
  {
    hide TakeLine;
    var n := LineEnd(stream);
    LineEndIs(stream + more, n);
    assert (stream + more)[..n] == stream[..n];
    assert (stream + more)[n + 1..] == stream[n + 1..] + more;
    if TakeLine(f, stream[..n]).None? {
      FoundStays(f, stream[n + 1..], more);
    }
  }

  lemma {:induction false} FlattenPrefix(chunks: seq<seq<byte>>, k: nat)
    requires k <= |chunks|
    ensures Flatten(chunks[..k]) <= Flatten(chunks)
  {
    if k < |chunks| {
      var front := chunks[..|chunks| - 1];
      FlattenPrefix(front, k);
      assert front[..k] == chunks[..k];
    } else {
      assert chunks[..k] == chunks;
    }
  }

  /** Reading until something is found: the result depends on the stream alone. */
  method ReadPayload(f: Filter, chunks: seq<seq<byte>>) returns (r: Option<seq<byte>>)
    ensures r == FirstAccepted(f, Flatten(chunks))
  {
    hide FirstAccepted, Tail;
    var accumulator := new PayloadAccumulator(f);
    for i := 0 to |chunks|
      invariant fresh(accumulator) && accumulator.Valid() && accumulator.filter == f
      invariant accumulator.seen == Flatten(chunks[..i])
    {
      assert chunks[..i + 1][..i] == chunks[..i];
      r := accumulator.Push(chunks[i]);
      if r.Some? {
        FlattenPrefix(chunks, i + 1);
        var head := Flatten(chunks[..i + 1]);
        assert Flatten(chunks) == head + Flatten(chunks)[|head|..];
        FoundStays(f, head, Flatten(chunks)[|head|..]);
        return;
      }
    }
    assert chunks[..|chunks|] == chunks;
    return None;
  }
}
