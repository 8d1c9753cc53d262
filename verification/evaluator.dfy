/** The payout evaluator: a pure rule from a three-face line and a wager to a win amount. */
module Evaluator {
  import opened Symbols

  /** Which branch of the payout rule a line falls into. */
  datatype Verdict = Jackpot | Pair | Miss

  /** The rule order of the evaluator: all three equal first, then a match of
      reels 0-1 or 1-2, else nothing. A match of reels 0 and 2 alone is a miss. */
  function Classify(r: Reels): (v: Verdict)
    ensures v == Jackpot <==> r[0] == r[1] && r[1] == r[2]
    ensures v == Pair <==> (r[0] == r[1]) != (r[1] == r[2])
    ensures v == Miss <==> r[0] != r[1] && r[1] != r[2]
  {
    if r[0] == r[1] && r[1] == r[2] then Jackpot
    else if r[0] == r[1] || r[1] == r[2] then Pair
    else Miss
  }

  /** How many times the wager a verdict pays. */
  function Multiplier(v: Verdict): nat
  {
    match v
    case Jackpot => 10
    case Pair => 2
    case Miss => 0
  }

  /** The win amount of a line for a wager. */
  function Payout(r: Reels, wager: nat): (win: nat)
    ensures win == 0 <==> wager == 0 || Classify(r) == Miss
    ensures win <= 10 * wager
  {
    wager * Multiplier(Classify(r))
  }

  /** Independent reading of the rule: count the adjacent pairs (0-1 and 1-2) that match. */
  function AdjacentMatches(r: Reels): (n: nat)
    ensures n <= 2
  {
    (if r[0] == r[1] then 1 else 0) + (if r[1] == r[2] then 1 else 0)
  }

  /** Pay table by number of matching adjacent pairs: none, one, both. */
  const PayTable: seq<nat> := [0, 2, 10]

  /** The evaluator agrees with the pay table indexed by matching adjacent pairs:
      two matching adjacent pairs force all three faces equal. */
  lemma PayoutByAdjacentMatches(r: Reels, wager: nat)
    ensures Payout(r, wager) == PayTable[AdjacentMatches(r)] * wager
  {
  }

  /** Three equal faces pay ten times the wager. */
  lemma PayoutTriple(a: Symbol, wager: nat)
    ensures Payout([a, a, a], wager) == 10 * wager
  {
  }

  /** One adjacent pair, on either side, pays twice the wager. */
  lemma PayoutAdjacentPair(a: Symbol, b: Symbol, wager: nat)
    requires a != b
    ensures Payout([a, a, b], wager) == 2 * wager
    ensures Payout([b, a, a], wager) == 2 * wager
  {
  }

  /** First and last equal with a different middle face pays nothing. */
  lemma PayoutSplitPairLoses(a: Symbol, b: Symbol, wager: nat)
    requires a != b
    ensures Payout([a, b, a], wager) == 0
  {
  }

  /** Three pairwise different faces pay nothing. */
  lemma PayoutAllDistinct(a: Symbol, b: Symbol, c: Symbol, wager: nat)
    requires a != b && b != c && a != c
    ensures Payout([a, b, c], wager) == 0
  {
  }

  /** Reading the line right to left pays the same: the rule treats the pairs
      0-1 and 1-2 alike. */
  lemma PayoutMirror(r: Reels, wager: nat)
    ensures Payout([r[2], r[1], r[0]], wager) == Payout(r, wager)
  {
  }
}
