/** `HeapCandidate` and its order. */
module Ranking {
  import opened Float32
  import opened TopK

  datatype Option<T> = None | Some(value: T)

  datatype Ordering = Less | Equal | Greater
  {
    function Then(next: Ordering): Ordering {
      if this == Equal then next else this
    }
  }

  function CompareInt(a: int, b: int): Ordering {
    if a < b then Less else if a == b then Equal else Greater
  }

  /** Rust's derived order on `Option`: `None` precedes every `Some`. */
  function CompareOption(a: Option<nat>, b: Option<nat>): Ordering {
    match (a, b)
    case (None, None) => Equal
    case (None, Some(_)) => Less
    case (Some(_), None) => Greater
    case (Some(x), Some(y)) => CompareInt(x, y)
  }

  datatype HeapCandidate = HeapCandidate(
    score: Score, shardRank: nat, slot: nat, rowLabel: Option<nat>, labelOrderKey: Option<nat>)
  {
    function Cmp(other: HeapCandidate): Ordering {
      CompareInt(TotalKey(other.score), TotalKey(score))
      .Then(CompareOption(labelOrderKey, other.labelOrderKey))
      .Then(CompareInt(shardRank, other.shardRank))
      .Then(CompareInt(slot, other.slot))
    }
  }

  /** `a` outranks `b`: the worst candidate is the greatest one. */
  predicate Before(a: HeapCandidate, b: HeapCandidate) {
    a.Cmp(b) == Less
  }

  /** Higher score first, by totalOrder; then the smaller label, where labels
      order; then the earlier shard; then the earlier slot. */
  lemma BeforeIs(a: HeapCandidate, b: HeapCandidate)
    ensures TotalKey(b.score) < TotalKey(a.score) ==> Before(a, b)
    ensures a.score == b.score && a.labelOrderKey.Some? && b.labelOrderKey.Some? ==>
              a.labelOrderKey.value < b.labelOrderKey.value ==> Before(a, b)
    ensures a.score == b.score && a.labelOrderKey == b.labelOrderKey && a.shardRank < b.shardRank ==> Before(a, b)
    ensures a.score == b.score && a.labelOrderKey == b.labelOrderKey && a.shardRank == b.shardRank ==>
              a.slot < b.slot ==> Before(a, b)
  {
  }

  lemma BeforeIsStrictOrder(a: HeapCandidate, b: HeapCandidate, c: HeapCandidate)
    ensures !Before(a, a)
    ensures Before(a, b) ==> !Before(b, a) && Le(b.score, a.score)
    ensures Before(a, b) && Before(b, c) ==> Before(a, c)
    ensures !Before(a, b) && !Before(b, a) <==>
              a.score == b.score && a.labelOrderKey == b.labelOrderKey
              && a.shardRank == b.shardRank && a.slot == b.slot
  {
  }

  lemma BeforeOrders()
    ensures StrictOrder(Before)
  {
    forall a ensures !Before(a, a) { BeforeIsStrictOrder(a, a, a); }
    forall a, b, c | Before(a, b) && Before(b, c) ensures Before(a, c) { BeforeIsStrictOrder(a, b, c); }
  }
}
