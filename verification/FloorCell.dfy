/** The atomic cell that carries a scan's floor, raised by a compare-and-swap
    loop while others raise it too. */
module FloorCell {
  import opened Float32
  import opened Ranking
  import opened ScanProtocol

  /** What happens between two looks at the cell: others may raise it, and the
      weak exchange may fail for no reason. */
  datatype Turn = Turn(others: seq<Score>, spurious: bool)

  function RaisedAll(current: Score, candidates: seq<Score>): Score {
    if candidates == [] then current
    else Raised(RaisedAll(current, candidates[..|candidates| - 1]), candidates[|candidates| - 1])
  }

  function RaisedBy(current: Score, turns: seq<Turn>): Score {
    if turns == [] then current
    else RaisedAll(RaisedBy(current, turns[..|turns| - 1]), turns[|turns| - 1].others)
  }

  /** Whatever the order of the raises, the cell ends at the numeric maximum. */
  lemma {:induction false} RaisedAllIsMax(current: Score, candidates: seq<Score>)
    ensures var r := RaisedAll(current, candidates);
            && Le(current, r) && (r == current || r in candidates)
            && forall c :: c in candidates ==> Le(c, r)
  {
    if candidates != [] {
      var init, last := candidates[..|candidates| - 1], candidates[|candidates| - 1];
      RaisedAllIsMax(current, init);
      assert candidates == init + [last];
    }
  }

  lemma TurnsNext(current: Score, turns: seq<Turn>, n: nat)
    requires n < |turns|
    ensures RaisedBy(current, turns[..n + 1]) == RaisedAll(RaisedBy(current, turns[..n]), turns[n].others)
  {
    assert turns[..n + 1][..n] == turns[..n];
  }

  class Cell {
    var bits: Score

    constructor (initial: Score)
      ensures bits == initial
    {
      bits := initial;
    }

    /** Other pumps get in first; then the exchange, which may fail spuriously. */
    method CompareExchangeWeak(expected: Score, desired: Score, turn: Turn) returns (swapped: bool, actual: Score)
      modifies this
      ensures var now := RaisedAll(old(bits), turn.others);
              && swapped == (now == expected && !turn.spurious)
              && actual == now
              && bits == if swapped then desired else now
    {
      bits := RaisedAll(bits, turn.others);
      actual := bits;
      swapped := bits == expected && !turn.spurious;
      if swapped { bits := desired; }
    }

    /** `raise_floor`. After `attempts` exchanges the cell is what the others
        made of it by then, raised to the candidate: no raise is lost and the
        cell never falls, even when the loaded value is stale. */
    method Raise(candidate: Score, turns: seq<Turn>) returns (attempts: nat)
      modifies this
      ensures attempts <= |turns| + 1
      ensures bits == Raised(RaisedBy(old(bits), turns[..if attempts <= |turns| then attempts else |turns|]), candidate)
      ensures Le(old(bits), bits) && Le(candidate, bits)
    {
      var current := bits;
      attempts := 0;
      assert turns[..0] == [];
      while true
        invariant attempts <= |turns|
        invariant bits == current == RaisedBy(old(bits), turns[..attempts]) && Le(old(bits), bits)
        decreases |turns| - attempts
      {
        if Le(candidate, current) { return; }
        var turn := if attempts < |turns| then turns[attempts] else Turn([], false);
        if attempts < |turns| { TurnsNext(old(bits), turns, attempts); }
        RaisedAllIsMax(current, turn.others);
        var swapped, actual := CompareExchangeWeak(current, candidate, turn);
        attempts := attempts + 1;
        if swapped { return; }
        current := actual;
      }
    }
  }
}
