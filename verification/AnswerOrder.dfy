/** When two collections must give the same answer: their eligible rows can be
    renamed to one common set without disturbing the order. */
module AnswerOrder {
  import opened Float32
  import opened TopK
  import opened Flatten
  import opened Ranking
  import opened Collector
  import opened ScanProtocol
  import opened ScanTheorems

  /** What `SearchIsExact` and `TieCompleteSearchIsExact` establish of an answer. */
  ghost predicate IsAnswer(q: Query, r: seq<HeapCandidate>) {
    if q.options.tieComplete then
      var top := ReferenceTopK(q);
      && Ascending(Before, r)
      && (forall c :: c in r <==> c in AllEligible(q) && (top != [] ==> Le(top[|top| - 1].score, c.score)))
    else r == ReferenceTopK(q)
  }

  lemma RunsGiveAnswers(q: Query, run: seq<System>)
    requires Accepted(q) && IsRun(q, run) && run[|run| - 1].phase.Returned?
    ensures IsAnswer(q, run[|run| - 1].phase.answer)
  {
    if q.options.tieComplete { TieCompleteSearchIsExact(q, run); } else { SearchIsExact(q, run); }
  }

  lemma AnswersAreEligible(q: Query, r: seq<HeapCandidate>)
    requires IsAnswer(q, r)
    ensures forall c :: c in r ==> c in AllEligible(q) && IsEligible(q, c)
  {
    AllEligibleAre(q);
    ReferenceIsTopK(q);
  }

  /** `f` takes the eligible rows onto `s`, keeping scores and rank order. */
  ghost predicate Renames(q: Query, f: HeapCandidate -> HeapCandidate, s: set<HeapCandidate>) {
    && (forall c :: c in AllEligible(q) ==> f(c) in s && f(c).score == c.score)
    && (forall d :: d in s ==> exists c :: c in AllEligible(q) && f(c) == d)
    && (forall a, b :: a in AllEligible(q) && b in AllEligible(q) && Before(a, b) ==> Before(f(a), f(b)))
  }

  lemma RenamedReference(q: Query, f: HeapCandidate -> HeapCandidate, s: set<HeapCandidate>)
    requires Renames(q, f, s)
    ensures IsTopK(Before, Map(f, ReferenceTopK(q)), s, q.options.k)
  {
    ReferenceIsTopK(q);
    TopKEmbeds(Before, Before, ReferenceTopK(q), AllEligible(q), q.options.k, f, Map(f, ReferenceTopK(q)), s);
  }

  lemma SameReference(q: Query, t: Query, f: HeapCandidate -> HeapCandidate, g: HeapCandidate -> HeapCandidate,
                      s: set<HeapCandidate>)
    requires q.options.k == t.options.k && Renames(q, f, s) && Renames(t, g, s)
    ensures Map(f, ReferenceTopK(q)) == Map(g, ReferenceTopK(t))
  {
    RenamedReference(q, f, s);
    RenamedReference(t, g, s);
    BeforeOrders();
    TopKUnique(Before, Map(f, ReferenceTopK(q)), Map(g, ReferenceTopK(t)), s, q.options.k);
  }

  lemma RenamedKeepsScores(q: Query, f: HeapCandidate -> HeapCandidate, s: set<HeapCandidate>)
    requires Renames(q, f, s)
    ensures forall i :: 0 <= i < |ReferenceTopK(q)| ==> f(ReferenceTopK(q)[i]).score == ReferenceTopK(q)[i].score
  {
    ReferenceIsTopK(q);
    var top := ReferenceTopK(q);
    assert forall i :: 0 <= i < |top| ==> top[i] in top;
  }

  lemma MapEnds(f: HeapCandidate -> HeapCandidate, a: seq<HeapCandidate>, g: HeapCandidate -> HeapCandidate,
                b: seq<HeapCandidate>)
    requires Map(f, a) == Map(g, b)
    ensures |a| == |b| && (a != [] ==> f(a[|a| - 1]) == g(b[|b| - 1]))
  {
    assert |Map(f, a)| == |a| && |Map(g, b)| == |b|;
    if a != [] { assert Map(f, a)[|a| - 1] == Map(g, b)[|a| - 1]; }
  }

  /** The two reference lists end on the same score. */
  lemma SameCut(q: Query, t: Query, f: HeapCandidate -> HeapCandidate, g: HeapCandidate -> HeapCandidate,
                s: set<HeapCandidate>)
    requires q.options.k == t.options.k && Renames(q, f, s) && Renames(t, g, s)
    ensures var a, b := ReferenceTopK(q), ReferenceTopK(t);
            (a == [] <==> b == []) && (a != [] ==> b != [] && a[|a| - 1].score == b[|b| - 1].score)
  {
    SameReference(q, t, f, g, s);
    RenamedKeepsScores(q, f, s);
    RenamedKeepsScores(t, g, s);
    MapEnds(f, ReferenceTopK(q), g, ReferenceTopK(t));
  }

  /** Every member of one tie-complete answer is, renamed, in the other. */
  lemma TieMemberCarries(q: Query, t: Query, f: HeapCandidate -> HeapCandidate, g: HeapCandidate -> HeapCandidate,
                         s: set<HeapCandidate>, r: seq<HeapCandidate>, u: seq<HeapCandidate>, d: HeapCandidate)
    requires q.options == t.options && q.options.tieComplete && Renames(q, f, s) && Renames(t, g, s)
    requires IsAnswer(q, r) && IsAnswer(t, u) && d in Map(f, r)
    ensures d in Map(g, u)
  {
    SameCut(q, t, f, g, s);
    var i :| 0 <= i < |r| && Map(f, r)[i] == d;
    assert r[i] in r;
    var c :| c in AllEligible(t) && g(c) == d;
    var j :| 0 <= j < |u| && u[j] == c;
    assert Map(g, u)[j] == d;
  }

  lemma RenamedAscends(q: Query, f: HeapCandidate -> HeapCandidate, s: set<HeapCandidate>, r: seq<HeapCandidate>)
    requires Renames(q, f, s) && Ascending(Before, r) && forall c :: c in r ==> c in AllEligible(q)
    ensures Ascending(Before, Map(f, r))
  {
    forall i, j | 0 <= i < j < |r| ensures Before(Map(f, r)[i], Map(f, r)[j]) {
      assert r[i] in r && r[j] in r;
    }
  }

  lemma AscendingUnique(a: seq<HeapCandidate>, b: seq<HeapCandidate>)
    requires Ascending(Before, a) && Ascending(Before, b) && Elements(a) == Elements(b)
    ensures a == b
  {
    BeforeOrders();
    AscendingCount(a);
    AscendingCount(b);
    TopKUnique(Before, a, b, Elements(a), |a|);
  }

  /** Collections whose eligible rows rename to the same set answer alike. */
  lemma AnswersCorrespond(q: Query, t: Query, f: HeapCandidate -> HeapCandidate, g: HeapCandidate -> HeapCandidate,
                          s: set<HeapCandidate>, r: seq<HeapCandidate>, u: seq<HeapCandidate>)
    requires q.options == t.options && Renames(q, f, s) && Renames(t, g, s)
    requires IsAnswer(q, r) && IsAnswer(t, u)
    ensures Map(f, r) == Map(g, u)
  {
    if q.options.tieComplete {
      var a, b := Map(f, r), Map(g, u);
      forall d | d in a ensures d in b { TieMemberCarries(q, t, f, g, s, r, u, d); }
      forall d | d in b ensures d in a { TieMemberCarries(t, q, g, f, s, u, r, d); }
      RenamedAscends(q, f, s, r);
      RenamedAscends(t, g, s, u);
      assert Elements(a) == Elements(b);
      AscendingUnique(a, b);
    } else {
      SameReference(q, t, f, g, s);
    }
  }
}
