/** The pot ledger: per-pot raised level and per-seat contributions. */
module Ledger {

  /** Sum of a sequence of chip counts. */
  function Sum(s: seq<nat>): nat
    decreases |s|
  {
    if |s| == 0 then 0 else Sum(s[..|s| - 1]) + s[|s| - 1]
  }

  /** Replacing one entry changes the sum by exactly the difference. */
  lemma {:induction false} SumUpdate(s: seq<nat>, i: nat, v: nat)
    requires i < |s|
    ensures Sum(s[i := v]) == Sum(s) - s[i] + v
    decreases |s|
  {
    var n := |s|;
    if i == n - 1 {
      assert s[i := v][..n - 1] == s[..n - 1];
    } else {
      assert s[i := v][..n - 1] == s[..n - 1][i := v];
      SumUpdate(s[..n - 1], i, v);
    }
  }

  /** Taking d out of one entry takes exactly d out of the sum. */
  lemma SumTake(s: seq<nat>, i: nat, d: nat)
    requires i < |s| && d <= s[i]
    ensures Sum(s[i := s[i] - d]) + d == Sum(s)
  {
    SumUpdate(s, i, s[i] - d);
  }

  /** A sequence of zeros sums to zero. */
  lemma {:induction false} SumZeros(s: seq<nat>)
    requires forall i :: 0 <= i < |s| ==> s[i] == 0
    ensures Sum(s) == 0
    decreases |s|
  {
    if |s| > 0 {
      SumZeros(s[..|s| - 1]);
    }
  }

  /**
   * One pot: `amount` holds chips collected in earlier betting rounds, `raised`
   * is the level every eligible seat must reach in this round, and
   * `playerAmounts[i]` is what seat i has put in during this round.
   */
  datatype Pot = Pot(amount: nat, raised: nat, playerAmounts: seq<nat>)

  /** What seat i has in this pot this round (0 for a seat that never posted). */
  function PlayerAmount(p: Pot, i: nat): nat
  {
    if i < |p.playerAmounts| then p.playerAmounts[i] else 0
  }

  /** Every chip in the pot: earlier rounds plus every contribution of this round. */
  function TotalAmount(p: Pot): nat
  {
    p.amount + Sum(p.playerAmounts)
  }

  /** What seat i still has to add to reach this pot's raised level. */
  function ToCallIn(p: Pot, i: nat): int
  {
    p.raised - PlayerAmount(p, i)
  }

  /** No contribution exceeds the raised level. */
  predicate Capped(p: Pot)
  {
    forall i :: 0 <= i < |p.playerAmounts| ==> p.playerAmounts[i] <= p.raised
  }

  /** A fresh pot for a table with the given number of seats. */
  function EmptyPot(seats: nat): (p: Pot)
    ensures |p.playerAmounts| == seats && Capped(p)
    ensures TotalAmount(p) == 0
    ensures forall i :: PlayerAmount(p, i) == 0
  {
    var zeros := seq(seats, _ => 0);
    SumZeros(zeros);
    Pot(0, 0, zeros)
  }

  /**
   * Seat i puts `chips` more into the pot. The raised level follows the
   * largest contribution, and the pot grows by exactly what was posted.
   */
  function Post(p: Pot, i: nat, chips: nat): (r: Pot)
    requires i < |p.playerAmounts|
    ensures |r.playerAmounts| == |p.playerAmounts| && r.amount == p.amount
    ensures PlayerAmount(r, i) == PlayerAmount(p, i) + chips
    ensures forall j :: j != i ==> PlayerAmount(r, j) == PlayerAmount(p, j)
    ensures r.raised >= p.raised && r.raised >= PlayerAmount(r, i)
    ensures r.raised == p.raised || r.raised == PlayerAmount(r, i)
    ensures TotalAmount(r) == TotalAmount(p) + chips
    ensures Capped(p) ==> Capped(r)
  {
    var now := p.playerAmounts[i] + chips;
    SumUpdate(p.playerAmounts, i, now);
    Pot(p.amount, if now > p.raised then now else p.raised, p.playerAmounts[i := now])
  }

  /** Sum of the totals of a sequence of pots. */
  function PotsTotal(pots: seq<Pot>): nat
    decreases |pots|
  {
    if |pots| == 0 then 0 else PotsTotal(pots[..|pots| - 1]) + TotalAmount(pots[|pots| - 1])
  }

  /** No pot of the sequence is empty. */
  predicate NoEmptyPot(pots: seq<Pot>)
  {
    forall k :: 0 <= k < |pots| ==> TotalAmount(pots[k]) > 0
  }
}
