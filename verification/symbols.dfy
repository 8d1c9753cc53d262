/** The reel faces of the slot machine and the three-reel line they form. */
module Symbols {

  /** The five faces, in the order of the `SYMBOLS` table:
      diamond, crown, money bag, slot machine, star. */
  datatype Symbol = Diamond | Crown | MoneyBag | SlotMachine | Star

  /** The `SYMBOLS` table; a random draw picks an index into it. */
  const AllSymbols: seq<Symbol> := [Diamond, Crown, MoneyBag, SlotMachine, Star]

  /** A reel line always holds exactly three faces. */
  type Reels = r: seq<Symbol> | |r| == 3 witness [Diamond, Diamond, Diamond]

  /** The face selected by a draw of table index `k`; no other index selects it. */
  function Draw(k: nat): (s: Symbol)
    requires k < |AllSymbols|
    ensures forall j :: 0 <= j < |AllSymbols| && AllSymbols[j] == s ==> j == k
  {
    AllSymbols[k]
  }

  /** The table position of a face: the inverse of `Draw`. */
  function IndexOf(s: Symbol): (k: nat)
    ensures k < |AllSymbols| && Draw(k) == s
  {
    match s
    case Diamond => 0
    case Crown => 1
    case MoneyBag => 2
    case SlotMachine => 3
    case Star => 4
  }

  /** The table has no repeated face, so `IndexOf` undoes `Draw`. */
  lemma IndexOfDraw(k: nat)
    requires k < |AllSymbols|
    ensures IndexOf(Draw(k)) == k
  {
  }

  /** The final line of three independent draws, as the resolution callback builds it. */
  function FinalReels(k0: nat, k1: nat, k2: nat): Reels
    requires k0 < |AllSymbols| && k1 < |AllSymbols| && k2 < |AllSymbols|
  {
    [Draw(k0), Draw(k1), Draw(k2)]
  }

  /** Different draws give different lines: together with `EveryOutcomeIsDrawable`,
      every line comes from exactly one index triple, so uniform draws make every
      line equally likely. */
  lemma FinalReelsInjective(k0: nat, k1: nat, k2: nat, j0: nat, j1: nat, j2: nat)
    requires k0 < |AllSymbols| && k1 < |AllSymbols| && k2 < |AllSymbols|
    requires j0 < |AllSymbols| && j1 < |AllSymbols| && j2 < |AllSymbols|
    requires FinalReels(k0, k1, k2) == FinalReels(j0, j1, j2)
    ensures k0 == j0 && k1 == j1 && k2 == j2
  {
    var r := FinalReels(k0, k1, k2);
    assert r[0] == Draw(k0) == Draw(j0);
    assert r[1] == Draw(k1) == Draw(j1);
    assert r[2] == Draw(k2) == Draw(j2);
  }

  /** Every line of three faces is the result of some three draws, so taking the
      final outcome as a parameter leaves no possible outcome out. */
  lemma EveryOutcomeIsDrawable(o: Reels)
    ensures exists k0: nat, k1: nat, k2: nat ::
      k0 < |AllSymbols| && k1 < |AllSymbols| && k2 < |AllSymbols| && FinalReels(k0, k1, k2) == o
  {
    var k0, k1, k2 := IndexOf(o[0]), IndexOf(o[1]), IndexOf(o[2]);
    assert FinalReels(k0, k1, k2) == o;
  }
}
