/** Stable label order: with unique labels an answer does not depend on how the
    rows are spread over shards. */
module LabelOrder {
  import opened Float32
  import opened Flatten
  import opened Ranking
  import opened Collector
  import opened ScanProtocol
  import opened ScanTheorems
  import opened AnswerOrder

  /** A candidate reduced to what a label-ordered caller keeps of it. */
  function ByLabel(c: HeapCandidate): HeapCandidate {
    HeapCandidate(c.score, 0, 0, None, c.labelOrderKey)
  }

  /** The eligible rows as a bare set of scored labels. */
  ghost function ScoredLabels(q: Query): set<HeapCandidate> {
    set c | c in AllEligible(q) :: ByLabel(c)
  }

  lemma ByLabelRenames(q: Query)
    requires Accepted(q) && q.options.stableLabelOrder
    requires forall c, d :: c in AllEligible(q) && d in AllEligible(q) && c.rowLabel == d.rowLabel ==> c == d
    ensures Renames(q, ByLabel, ScoredLabels(q))
  {
    AllEligibleAre(q);
    forall a, b | a in AllEligible(q) && b in AllEligible(q) && Before(a, b) ensures Before(ByLabel(a), ByLabel(b)) {
      assert IsEligible(q, a) && IsEligible(q, b);
      BeforeIsStrictOrder(a, b, a);
    }
  }

  /** The same scored labels, spread over shards in two ways. */
  lemma SameScoredLabels(q: Query, t: Query)
    requires Accepted(q) && Accepted(t) && q.options.stableLabelOrder && t.options.stableLabelOrder
    requires forall c :: c in AllEligible(q) ==>
               exists d :: d in AllEligible(t) && c.score == d.score && c.rowLabel == d.rowLabel
    ensures ScoredLabels(q) <= ScoredLabels(t)
  {
    AllEligibleAre(q);
    AllEligibleAre(t);
    forall c | c in AllEligible(q) ensures ByLabel(c) in ScoredLabels(t) {
      var d :| d in AllEligible(t) && c.score == d.score && c.rowLabel == d.rowLabel;
      assert IsEligible(q, c) && IsEligible(t, d);
      assert ByLabel(c) == ByLabel(d);
    }
  }

  lemma RenamedAnswersAgree(q: Query, t: Query, run: seq<System>, other: seq<System>)
    requires Accepted(q) && Accepted(t) && q.options == t.options && q.options.stableLabelOrder
    requires Renames(q, ByLabel, ScoredLabels(q)) && Renames(t, ByLabel, ScoredLabels(q))
    requires IsRun(q, run) && run[|run| - 1].phase.Returned?
    requires IsRun(t, other) && other[|other| - 1].phase.Returned?
    ensures var r, u := run[|run| - 1].phase.answer, other[|other| - 1].phase.answer;
            && |r| == |u|
            && forall n :: 0 <= n < |r| ==>
                 r[n].score == u[n].score && r[n].rowLabel == u[n].rowLabel && r[n].rowLabel.Some?
  {
    var r, u := run[|run| - 1].phase.answer, other[|other| - 1].phase.answer;
    RunsGiveAnswers(q, run);
    RunsGiveAnswers(t, other);
    AnswersCorrespond(q, t, ByLabel, ByLabel, ScoredLabels(q), r, u);
    AnswersAreEligible(q, r);
    AnswersAreEligible(t, u);
    assert |Map(ByLabel, r)| == |r| && |Map(ByLabel, u)| == |u|;
    forall n | 0 <= n < |r|
      ensures r[n].score == u[n].score && r[n].rowLabel == u[n].rowLabel && r[n].rowLabel.Some?
    {
      assert Map(ByLabel, r)[n] == Map(ByLabel, u)[n];
      assert r[n] in r && u[n] in u;
    }
  }

  /** Two collections with the same eligible scored labels, no label twice,
      however they are sharded, give the same sequence of scores and labels. */
  lemma PlacementDoesNotMatter(q: Query, t: Query, run: seq<System>, other: seq<System>)
    requires Accepted(q) && Accepted(t) && q.options == t.options && q.options.stableLabelOrder
    requires forall c, d :: c in AllEligible(q) && d in AllEligible(q) && c.rowLabel == d.rowLabel ==> c == d
    requires forall c, d :: c in AllEligible(t) && d in AllEligible(t) && c.rowLabel == d.rowLabel ==> c == d
    requires forall c :: c in AllEligible(q) ==>
               exists d :: d in AllEligible(t) && c.score == d.score && c.rowLabel == d.rowLabel
    requires forall d :: d in AllEligible(t) ==>
               exists c :: c in AllEligible(q) && d.score == c.score && d.rowLabel == c.rowLabel
    requires IsRun(q, run) && run[|run| - 1].phase.Returned?
    requires IsRun(t, other) && other[|other| - 1].phase.Returned?
    ensures var r, u := run[|run| - 1].phase.answer, other[|other| - 1].phase.answer;
            && |r| == |u|
            && forall n :: 0 <= n < |r| ==>
                 r[n].score == u[n].score && r[n].rowLabel == u[n].rowLabel && r[n].rowLabel.Some?
  {
    ByLabelRenames(q);
    ByLabelRenames(t);
    SameScoredLabels(q, t);
    SameScoredLabels(t, q);
    assert ScoredLabels(q) == ScoredLabels(t);
    RenamedAnswersAgree(q, t, run, other);
  }
}
