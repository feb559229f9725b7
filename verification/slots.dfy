/** The fixed colour table of Color Game Royale: four wager-able colours, each
    tied to a faction and worth a fixed number of points, plus the small
    enumerations the session record uses. */
module Slots {

  datatype Color = Red | Green | Blue | Yellow

  datatype Faction = Fire | Water | Nature | Light

  datatype Champion = Ren | Rei

  datatype GamePhase = Title | ChampionSelect | Playing

  /** The stake of one click on a betting panel, in coins. */
  const Stake: nat := 5

  /** Number of balls drawn in one round. */
  const DrawSize: nat := 3

  /** x coins make a whole number of stakes. The divisor is written as a literal
      (Stake is 5) so that divisibility stays linear arithmetic for the solver. */
  predicate WholeStakes(x: int)
  {
    x % 5 == 0
  }

  /** n drawn balls make a whole number of rounds (DrawSize is 3). */
  predicate WholeRounds(n: int)
  {
    n % 3 == 0
  }

  /** The faction column of the slot table. */
  function FactionOf(c: Color): Faction
  {
    match c
    case Red => Fire
    case Green => Nature
    case Blue => Water
    case Yellow => Light
  }

  /** The slot that carries a faction: the table gives every faction exactly one colour. */
  function ColorOf(f: Faction): (c: Color)
    ensures FactionOf(c) == f
  {
    match f
    case Fire => Red
    case Nature => Green
    case Water => Blue
    case Light => Yellow
  }

  /** The points column of the slot table. */
  function Points(c: Color): nat
  {
    match c
    case Red => 10
    case Green => 10
    case Blue => 10
    case Yellow => 10
  }

  /** FactionOf and ColorOf are inverse to each other, so the table is a bijection
      between colours and factions and every colour is worth 10 points. */
  lemma {:induction false} SlotTable(c: Color, f: Faction)
    ensures ColorOf(FactionOf(c)) == c
    ensures FactionOf(c) == f <==> ColorOf(f) == c
    ensures Points(c) == 10
  {
    match c
    case Red =>
    case Green =>
    case Blue =>
    case Yellow =>
  }

  /** Position of a phase in the title -> champion-select -> playing progression. */
  function Rank(p: GamePhase): (r: nat)
    ensures r <= 2
    ensures r == 0 <==> p == Title
  {
    match p
    case Title => 0
    case ChampionSelect => 1
    case Playing => 2
  }

  /** Sums and differences of multiples of the stake are multiples of the stake. */
  lemma MultipleOfStakeAdd(a: int, b: int)
    requires WholeStakes(a) && WholeStakes(b)
    ensures WholeStakes(a + b) && WholeStakes(a - b)
  {
  }
}
