/** The bounded heap over any strict order, and what it means for a list to be
    the first k members of a set. `lt(a, b)` reads "a outranks b". */
module TopK {
  ghost predicate StrictOrder<T(!new)>(lt: (T, T) -> bool) {
    && (forall a :: !lt(a, a))
    && (forall a, b, c :: lt(a, b) && lt(b, c) ==> lt(a, c))
  }

  /** No two members compare equal. */
  ghost predicate Distinguishable<T(!new)>(lt: (T, T) -> bool, s: set<T>) {
    forall a, b :: a in s && b in s && a != b ==> lt(a, b) || lt(b, a)
  }

  ghost predicate Ascending<T>(lt: (T, T) -> bool, r: seq<T>) {
    forall i, j :: 0 <= i < j < |r| ==> lt(r[i], r[j])
  }

  function Elements<T>(r: seq<T>): set<T> {
    set c | c in r
  }

  ghost predicate NoDuplicates<T>(r: seq<T>) {
    forall i, j :: 0 <= i < j < |r| ==> r[i] != r[j]
  }

  /** `r` lists, best first, the first min(k, |s|) members of `s`. */
  ghost predicate IsTopK<T(!new)>(lt: (T, T) -> bool, r: seq<T>, s: set<T>, k: nat) {
    && Ascending(lt, r)
    && |r| <= k
    && (forall c :: c in r ==> c in s)
    && (|r| < k ==> forall c :: c in s ==> c in r)
    && (forall c, i :: c in s && c !in r && 0 <= i < |r| ==> lt(r[i], c))
  }

  // The heap is represented by its contents in rank order: `peek` reads the
  // last entry, `pop` drops it and `push` is `Insert`.

  function Insert<T>(lt: (T, T) -> bool, c: T, s: seq<T>): seq<T> {
    if s == [] || lt(c, s[0]) then [c] + s else [s[0]] + Insert(lt, c, s[1..])
  }

  /** `candidates.sort()`. */
  function Sort<T>(lt: (T, T) -> bool, s: seq<T>): seq<T> {
    if s == [] then [] else Insert(lt, s[|s| - 1], Sort(lt, s[..|s| - 1]))
  }

  /** One candidate against the bounded heap. */
  function Offer<T>(lt: (T, T) -> bool, heap: seq<T>, c: T, k: nat): seq<T>
    requires 1 <= k
  {
    if |heap| < k then Insert(lt, c, heap)
    else if lt(c, heap[|heap| - 1]) then Insert(lt, c, heap[..|heap| - 1])
    else heap
  }

  lemma {:induction false} InsertKeepsOrder<T(!new)>(lt: (T, T) -> bool, c: T, s: seq<T>)
    requires StrictOrder(lt) && Ascending(lt, s)
    requires forall i :: 0 <= i < |s| ==> lt(c, s[i]) || lt(s[i], c)
    ensures Ascending(lt, Insert(lt, c, s))
    ensures |Insert(lt, c, s)| == |s| + 1
    ensures forall d :: d in Insert(lt, c, s) <==> d == c || d in s
  {
    if s == [] {
    } else if lt(c, s[0]) {
      forall i | 0 < i < |s| ensures lt(c, s[i]) {
        assert lt(s[0], s[i]);
      }
    } else {
      InsertKeepsOrder(lt, c, s[1..]);
      var t := Insert(lt, c, s[1..]);
      forall d | d in t ensures lt(s[0], d) {
        if d != c {
          var i :| 0 <= i < |s[1..]| && s[1..][i] == d;
          assert d == s[i + 1];
        }
      }
      assert s == [s[0]] + s[1..];
    }
  }

  /** Popping the root of a full heap leaves the first k - 1 members. */
  lemma PopKeepsTopK<T(!new)>(lt: (T, T) -> bool, heap: seq<T>, s: set<T>, k: nat)
    requires StrictOrder(lt) && 1 <= k == |heap| && IsTopK(lt, heap, s, k)
    ensures IsTopK(lt, heap[..k - 1], s, k - 1)
    ensures forall d :: d in s && d !in heap[..k - 1] && d != heap[k - 1] ==> lt(heap[k - 1], d)
  {
    var kept, worst := heap[..k - 1], heap[k - 1];
    assert heap == kept + [worst];
  }

  lemma PushKeepsTopK<T(!new)>(lt: (T, T) -> bool, heap: seq<T>, s: set<T>, c: T, k: nat)
    requires StrictOrder(lt) && |heap| < k && IsTopK(lt, heap, s, k - 1)
    requires c !in s && Distinguishable(lt, s + {c})
    requires |heap| == k - 1 ==> forall d :: d in s && d !in heap ==> lt(c, d)
    ensures IsTopK(lt, Insert(lt, c, heap), s + {c}, k)
  {
    assert forall i :: 0 <= i < |heap| ==> heap[i] in s;
    InsertKeepsOrder(lt, c, heap);
    var r := Insert(lt, c, heap);
    forall d, i | d in s + {c} && d !in r && 0 <= i < |r| ensures lt(r[i], d) {
      assert r[i] in r;
      if r[i] != c {
        var j :| 0 <= j < |heap| && heap[j] == r[i];
      }
    }
  }

  lemma OfferKeepsTopK<T(!new)>(lt: (T, T) -> bool, heap: seq<T>, s: set<T>, c: T, k: nat)
    requires StrictOrder(lt) && 1 <= k && IsTopK(lt, heap, s, k)
    requires c !in s && Distinguishable(lt, s + {c})
    ensures IsTopK(lt, Offer(lt, heap, c, k), s + {c}, k)
  {
    if |heap| < k {
      PushKeepsTopK(lt, heap, s, c, k);
    } else if lt(c, heap[k - 1]) {
      PopKeepsTopK(lt, heap, s, k);
      PushKeepsTopK(lt, heap[..k - 1], s, c, k);
    } else {
      assert heap[k - 1] in s;
      forall i | 0 <= i < |heap| ensures lt(heap[i], c) {
        if i < k - 1 { assert lt(heap[i], heap[k - 1]); }
      }
    }
  }

  /** Members that rank after a full heap's root do not change the list. */
  lemma WorseDoesNotMatter<T(!new)>(lt: (T, T) -> bool, r: seq<T>, s: set<T>, t: set<T>, k: nat)
    requires StrictOrder(lt) && 1 <= k && IsTopK(lt, r, s, k) && s <= t
    requires t != s ==> |r| == k
    requires forall c :: c in t && c !in s ==> lt(r[k - 1], c)
    ensures IsTopK(lt, r, t, k)
  {
    forall c, i | c in t && c !in r && 0 <= i < |r| ensures lt(r[i], c) {
      if c !in s && i < k - 1 { assert lt(r[i], r[k - 1]); }
    }
  }

  lemma TopKTail<T(!new)>(lt: (T, T) -> bool, r: seq<T>, s: set<T>, k: nat)
    requires StrictOrder(lt) && IsTopK(lt, r, s, k) && r != []
    ensures IsTopK(lt, r[1..], s - {r[0]}, k - 1)
    ensures r[0] in s && forall c :: c in s && c != r[0] ==> lt(r[0], c)
  {
    assert r == [r[0]] + r[1..];
    forall c | c in s && c != r[0] ensures lt(r[0], c) {
      if c in r { var i :| 0 <= i < |r| && r[i] == c; }
    }
    forall c | c in r[1..] ensures c in s - {r[0]} {
      var i :| 0 <= i < |r[1..]| && r[1..][i] == c;
      assert r[i + 1] == c && lt(r[0], c);
    }
  }

  /** There is at most one such list, and its length is min(k, |s|). */
  lemma {:induction false} TopKUnique<T(!new)>(lt: (T, T) -> bool, r: seq<T>, q: seq<T>, s: set<T>, k: nat)
    requires StrictOrder(lt) && IsTopK(lt, r, s, k) && IsTopK(lt, q, s, k)
    ensures r == q
    ensures |r| == if k < |s| then k else |s|
    decreases k
  {
    assert (r == [] || r[0] in s) && (q == [] || q[0] in s);
    if r != [] && q != [] {
      TopKTail(lt, r, s, k);
      TopKTail(lt, q, s, k);
      TopKUnique(lt, r[1..], q[1..], s - {r[0]}, k - 1);
    } else {
      assert k == 0 || forall c :: c !in s;
      assert k == 0 || s == {};
    }
  }

  lemma {:induction false} SortRanks<T(!new)>(lt: (T, T) -> bool, s: seq<T>)
    requires StrictOrder(lt) && NoDuplicates(s) && Distinguishable(lt, Elements(s))
    ensures Ascending(lt, Sort(lt, s)) && |Sort(lt, s)| == |s|
    ensures forall c :: c in Sort(lt, s) <==> c in s
  {
    if s != [] {
      var init, last := s[..|s| - 1], s[|s| - 1];
      assert s == init + [last];
      SortRanks(lt, init);
      var sorted := Sort(lt, init);
      forall i | 0 <= i < |sorted| ensures lt(last, sorted[i]) || lt(sorted[i], last) {
        assert sorted[i] in sorted;
        assert sorted[i] in Elements(s) && last in Elements(s);
      }
      InsertKeepsOrder(lt, last, sorted);
    }
  }

  lemma {:induction false} InsertAtEnd<T(!new)>(lt: (T, T) -> bool, c: T, s: seq<T>)
    requires StrictOrder(lt)
    requires forall i :: 0 <= i < |s| ==> lt(s[i], c)
    ensures Insert(lt, c, s) == s + [c]
  {
    if s != [] {
      assert lt(s[0], c) && (lt(c, s[0]) ==> lt(c, c));
      InsertAtEnd(lt, c, s[1..]);
    }
  }

  lemma {:induction false} SortFixesAscending<T(!new)>(lt: (T, T) -> bool, s: seq<T>)
    requires StrictOrder(lt) && Ascending(lt, s)
    ensures Sort(lt, s) == s
  {
    if s != [] {
      SortFixesAscending(lt, s[..|s| - 1]);
      InsertAtEnd(lt, s[|s| - 1], s[..|s| - 1]);
    }
  }

  /** The reference answer over all of `rows`: sort everything, keep the first k. */
  function Leading<T>(lt: (T, T) -> bool, rows: seq<T>, k: nat): seq<T> {
    var ranked := Sort(lt, rows);
    if k < |ranked| then ranked[..k] else ranked
  }

  lemma LeadingIsTopK<T(!new)>(lt: (T, T) -> bool, rows: seq<T>, k: nat)
    requires StrictOrder(lt) && NoDuplicates(rows) && Distinguishable(lt, Elements(rows))
    ensures IsTopK(lt, Leading(lt, rows, k), Elements(rows), k)
  {
    SortRanks(lt, rows);
    var ranked := Sort(lt, rows);
    var r := Leading(lt, rows, k);
    assert forall i :: 0 <= i < |r| ==> r[i] == ranked[i];
    forall c | c in rows && c !in r ensures exists j :: k <= j < |ranked| && ranked[j] == c {
      assert c in ranked;
      assert forall j :: 0 <= j < |r| ==> r[j] != c;
    }
  }

  /** A renaming that keeps the order keeps the list. */
  lemma TopKEmbeds<T(!new), U(!new)>(
    lt: (T, T) -> bool, lu: (U, U) -> bool, r: seq<T>, s: set<T>, k: nat, f: T -> U, q: seq<U>, t: set<U>)
    requires IsTopK(lt, r, s, k)
    requires |q| == |r| && forall i :: 0 <= i < |r| ==> q[i] == f(r[i])
    requires forall c :: c in s ==> f(c) in t
    requires forall d :: d in t ==> exists c :: c in s && f(c) == d
    requires forall a, b :: a in s && b in s && lt(a, b) ==> lu(f(a), f(b))
    ensures IsTopK(lu, q, t, k)
  {
    assert forall i :: 0 <= i < |r| ==> r[i] in s;
    forall c | c in r ensures f(c) in q {
      var i :| 0 <= i < |r| && r[i] == c;
      assert q[i] == f(c);
    }
    forall d, i | d in t && d !in q && 0 <= i < |q| ensures lu(q[i], d) {
      var c :| c in s && f(c) == d;
      assert c !in r;
    }
  }
}
