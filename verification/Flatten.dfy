/** Concatenating parts, and where each element lands. */
module Flatten {
  function Flat<T>(parts: seq<seq<T>>): seq<T> {
    if parts == [] then [] else Flat(parts[..|parts| - 1]) + parts[|parts| - 1]
  }

  lemma {:induction false} FlatConcat<T>(a: seq<seq<T>>, b: seq<seq<T>>)
    ensures Flat(a + b) == Flat(a) + Flat(b)
  {
    if b == [] {
      assert a + b == a;
    } else {
      assert (a + b)[..|a + b| - 1] == a + b[..|b| - 1];
      FlatConcat(a, b[..|b| - 1]);
    }
  }

  /** The place of element `j` of part `i` in the whole. */
  function Position<T>(parts: seq<seq<T>>, i: nat, j: nat): nat
    requires i < |parts|
  {
    |Flat(parts[..i])| + j
  }

  lemma {:induction false} FlatPrefix<T>(parts: seq<seq<T>>, i: nat)
    requires i < |parts|
    ensures Flat(parts[..i]) + parts[i] <= Flat(parts)
  {
    var init := parts[..|parts| - 1];
    if i < |parts| - 1 {
      assert init[..i] == parts[..i];
      FlatPrefix(init, i);
    }
  }

  lemma ElementAt<T>(parts: seq<seq<T>>, i: nat, j: nat)
    requires i < |parts| && j < |parts[i]|
    ensures Position(parts, i, j) < |Flat(parts)| && Flat(parts)[Position(parts, i, j)] == parts[i][j]
  {
    FlatPrefix(parts, i);
    assert (Flat(parts[..i]) + parts[i])[Position(parts, i, j)] == parts[i][j];
  }

  lemma PositionsFollowParts<T>(parts: seq<seq<T>>, i: nat, j: nat, k: nat, l: nat)
    requires i < |parts| && j < |parts[i]| && k < |parts| && l < |parts[k]|
    requires i < k || (i == k && j < l)
    ensures Position(parts, i, j) < Position(parts, k, l)
  {
    if i < k {
      FlatPrefix(parts[..k], i);
      assert parts[..k][..i] == parts[..i];
    }
  }

  lemma {:induction false} Locate<T>(parts: seq<seq<T>>, p: nat) returns (i: nat, j: nat)
    requires p < |Flat(parts)|
    ensures i < |parts| && j < |parts[i]| && Position(parts, i, j) == p
  {
    var init := parts[..|parts| - 1];
    if p < |Flat(init)| {
      i, j := Locate(init, p);
      assert init[..i] == parts[..i];
    } else {
      i, j := |parts| - 1, p - |Flat(init)|;
    }
  }

  function Map<T, U>(f: T -> U, s: seq<T>): seq<U> {
    seq(|s|, i requires 0 <= i < |s| => f(s[i]))
  }

  function MapParts<T, U>(f: T -> U, parts: seq<seq<T>>): seq<seq<U>> {
    seq(|parts|, i requires 0 <= i < |parts| => Map(f, parts[i]))
  }

  lemma {:induction false} FlatMap<T, U>(f: T -> U, parts: seq<seq<T>>)
    ensures Flat(MapParts(f, parts)) == Map(f, Flat(parts))
  {
    if parts != [] {
      var init := parts[..|parts| - 1];
      assert MapParts(f, parts)[..|parts| - 1] == MapParts(f, init);
      FlatMap(f, init);
    }
  }

  lemma MapKeepsPositions<T, U>(f: T -> U, parts: seq<seq<T>>, i: nat, j: nat)
    requires i < |parts|
    ensures Position(MapParts(f, parts), i, j) == Position(parts, i, j)
  {
    assert MapParts(f, parts)[..i] == MapParts(f, parts[..i]);
    FlatMap(f, parts[..i]);
  }
}
