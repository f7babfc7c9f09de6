/** Small shared vocabulary: options, machine-integer limits, order-preserving
    filtering (`Vec::retain`), and the ascending enumeration of a finite set of ids. */
module Base {
  datatype Option<+T> = None | Some(value: T) {
    predicate IsFailure() {
      None?
    }

    function PropagateFailure<U>(): Option<U>
      requires None?
    {
      None
    }

    function Extract(): T
      requires Some?
    {
      value
    }
  }

  newtype byte = b: int | 0 <= b < 256

  const U64_MAX: nat := 0xFFFF_FFFF_FFFF_FFFF

  /** `u64::saturating_add`. */
  function SatAdd(a: nat, b: nat): nat {
    if a + b <= U64_MAX then a + b else U64_MAX
  }

  function Min(a: nat, b: nat): nat {
    if a <= b then a else b
  }

  function Max(a: nat, b: nat): nat {
    if a <= b then b else a
  }

  /** `Vec::retain`: the elements satisfying `p`, in their original order. */
  function Keep<T>(s: seq<T>, p: T -> bool): (r: seq<T>)
    ensures |r| <= |s|
    ensures forall x | x in r :: x in s && p(x)
    ensures forall x | x in s :: p(x) ==> x in r
  {
    if s == [] then []
    else
      var rest := Keep(s[..|s| - 1], p);
      var last := s[|s| - 1];
      assert s == s[..|s| - 1] + [last];
      if p(last) then rest + [last] else rest
  }

  /** These are the positions of the elements satisfying `p`, in order. */
  ghost predicate Selects<T(!new)>(at: seq<nat>, s: seq<T>, p: T -> bool) {
    && Increasing(at)
    && (forall k | 0 <= k < |at| :: at[k] < |s| && p(s[at[k]]))
    && (forall i | 0 <= i < |s| && p(s[i]) :: i in at)
  }

  /** Filtering keeps exactly the elements at those positions, in that order. */
  lemma {:induction false} KeepInOrder<T(!new)>(s: seq<T>, p: T -> bool) returns (at: seq<nat>)
    ensures Selects(at, s, p) && StandAt(Keep(s, p), s, at)
  {
    at := [];
    if s != [] {
      hide Keep, Selects, StandAt;
      var n := |s| - 1;
      var before := KeepInOrder(s[..n], p);
      at := if p(s[n]) then before + [n] else before;
      SelectsNext(before, at, s, p);
      KeepLast(s, p);
      StandNext(Keep(s[..n], p), s, before);
    }
  }

  /** The elements at these positions. */
  ghost predicate StandAt<T(!new)>(r: seq<T>, s: seq<T>, at: seq<nat>) {
    |r| == |at| && forall k | 0 <= k < |at| :: at[k] < |s| && r[k] == s[at[k]]
  }

  lemma KeepLast<T>(s: seq<T>, p: T -> bool)
    requires s != []
    ensures var n := |s| - 1;
            Keep(s, p) == if p(s[n]) then Keep(s[..n], p) + [s[n]] else Keep(s[..n], p)
  {
  }

  lemma StandNext<T(!new)>(r: seq<T>, s: seq<T>, at: seq<nat>)
    requires s != [] && StandAt(r, s[..|s| - 1], at)
    ensures StandAt(r, s, at) && StandAt(r + [s[|s| - 1]], s, at + [|s| - 1])
  {
    assert forall k | 0 <= k < |at| :: s[..|s| - 1][at[k]] == s[at[k]];
  }

  lemma SelectsNext<T(!new)>(before: seq<nat>, at: seq<nat>, s: seq<T>, p: T -> bool)
    requires s != [] && Selects(before, s[..|s| - 1], p)
    requires at == if p(s[|s| - 1]) then before + [|s| - 1] else before
    ensures Selects(at, s, p)
  {
    var n := |s| - 1;
    forall k | 0 <= k < |at| ensures at[k] < |s| && p(s[at[k]]) {
      if k < |before| { assert s[..n][before[k]] == s[at[k]]; }
    }
    forall i | 0 <= i < |s| && p(s[i]) ensures i in at {
      if i < n {
        assert p(s[..n][i]);
        assert i in before;
      } else {
        assert at[|before|] == n;
      }
    }
  }

  /** `Vec::remove`. */
  function Without<T>(s: seq<T>, at: nat): (r: seq<T>)
    requires at < |s|
    ensures |r| == |s| - 1
    ensures forall i | 0 <= i < |r| :: r[i] == s[if i < at then i else i + 1]
  {
    s[..at] + s[at + 1..]
  }

  ghost predicate Distinct<T>(s: seq<T>) {
    forall i, j :: 0 <= i < j < |s| ==> s[i] != s[j]
  }

  ghost predicate Increasing(s: seq<nat>) {
    forall i, j :: 0 <= i < j < |s| ==> s[i] < s[j]
  }

  /** The smallest id of a non-empty set. */
  ghost function Least(s: set<nat>): (m: nat)
    requires s != {}
    ensures m in s
    ensures forall x | x in s :: m <= x
  {
    var m :| m in s;
    var rest := s - {m};
    if rest == {} then
      assert s == {m};
      m
    else
      var other := Least(rest);
      assert forall x | x in s :: x == m || x in rest;
      if m < other then m else other
  }

  /** The ids of `s` from smallest to largest. */
  ghost function Ascending(s: set<nat>): (r: seq<nat>)
    ensures |r| == |s|
    ensures forall x | x in r :: x in s
    ensures forall x | x in s :: x in r
    ensures Increasing(r)
  {
    if s == {} then []
    else
      var m := Least(s);
      var rest := Ascending(s - {m});
      PrependIncreasing(m, rest);
      [m] + rest
  }

  predicate IsLeast(m: nat, s: set<nat>) {
    m in s && forall x | x in s :: m <= x
  }

  lemma LeastFirst(s: set<nat>, m: nat)
    requires IsLeast(m, s)
    ensures Ascending(s) == [m] + Ascending(s - {m})
  {
    assert Least(s) == m;
  }

  lemma HasLeast(s: set<nat>)
    requires s != {}
    ensures exists m :: IsLeast(m, s)
  {
    assert IsLeast(Least(s), s);
  }

  /** Sorting ids drained from a hash map. */
  method Sort(ids: set<nat>) returns (r: seq<nat>)
    ensures r == Ascending(ids)
  {
    hide Ascending, Increasing, Least;
    r := [];
    var left := ids;
    while left != {}
      invariant r + Ascending(left) == Ascending(ids)
      decreases |left|
    {
      HasLeast(left);
      var m :| m in left && IsLeast(m, left);
      LeastFirst(left, m);
      r := r + [m];
      left := left - {m};
    }
  }

  lemma PrependIncreasing(m: nat, rest: seq<nat>)
    requires Increasing(rest)
    requires forall x | x in rest :: m < x
    ensures Increasing([m] + rest)
  {
    var r := [m] + rest;
    forall i, j | 0 <= i < j < |r| ensures r[i] < r[j] {
      assert r[j] == rest[j - 1];
      assert rest[j - 1] in rest;
    }
  }

  lemma SubsetSize<T>(a: set<T>, b: set<T>)
    requires a <= b
    ensures |a| <= |b|
  {
    assert b == a + (b - a);
  }

  lemma SwapUnion<T>(a: set<T>, b: set<T>, c: set<T>)
    ensures a + b + c == a + c + b
  {
  }
}
