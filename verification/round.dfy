/** Round resolution: given the stakes on each colour and the drawn balls,
    the payout, the damage dealt to the boss and the elemental credits. */
module Round {
  import opened Slots

  /** Stake per colour; a colour without a key has no bet. */
  type Bets = map<Color, nat>

  /** Cumulative matched draws per faction. */
  type Balance = map<Faction, nat>

  /** Number of draws equal to c. */
  function Count(outcome: seq<Color>, c: Color): (m: nat)
    ensures m <= |outcome|
    ensures m == 0 <==> c !in outcome
  {
    if outcome == [] then 0
    else (if outcome[0] == c then 1 else 0) + Count(outcome[1..], c)
  }

  /** k added m times. Products of two unknowns are written with Times so that
      reasoning about sums of payouts stays linear; TimesIsProduct relates it to k * m. */
  function Times(k: nat, m: nat): nat
  {
    if m == 0 then 0 else Times(k, m - 1) + k
  }

  lemma {:induction false} TimesIsProduct(k: nat, m: nat)
    ensures Times(k, m) == k * m
  {
    if m > 0 {
      TimesIsProduct(k, m - 1);
    }
  }

  /** Matches credited to colour c: only a colour that was bet is credited. */
  function BetMatches(bets: Bets, outcome: seq<Color>, c: Color): nat
  {
    if c in bets then Count(outcome, c) else 0
  }

  /** What colour c pays back: the stake plus the stake once per match, and
      nothing (the stake is lost) when the colour was not drawn. */
  function Payout(bets: Bets, outcome: seq<Color>, c: Color): nat
  {
    var m := BetMatches(bets, outcome, c);
    if m > 0 then StakeBack(bets[c], m) else 0
  }

  /** A winning stake comes back together with one more stake per match. */
  function StakeBack(stake: nat, m: nat): nat
  {
    stake + Times(stake, m)
  }

  /** Times grows with the number of repetitions. */
  lemma {:induction false} TimesMonotone(k: nat, m: nat, n: nat)
    requires m <= n
    ensures Times(k, m) <= Times(k, n)
  {
    if n > m {
      TimesMonotone(k, m, n - 1);
    }
  }

  /** Repeating a multiple of the stake gives a multiple of the stake. */
  lemma {:induction false} TimesWhole(k: nat, m: nat)
    requires WholeStakes(k)
    ensures WholeStakes(Times(k, m))
  {
    if m > 0 {
      TimesWhole(k, m - 1);
      MultipleOfStakeAdd(Times(k, m - 1), k);
    }
  }

  lemma Distribute(a: int, b: int)
    ensures a * (1 + b) == a + a * b == (b + 1) * a
  {
  }

  /** What comes back on m matches is (1 + m) stakes: at least the stake itself,
      at most (1 + n) stakes when m <= n, and a multiple of 5 when the stake is. */
  lemma StakeBackRange(stake: nat, m: nat, n: nat)
    requires m <= n
    ensures StakeBack(stake, m) == stake * (1 + m)
    ensures stake <= StakeBack(stake, m) <= (n + 1) * stake
    ensures WholeStakes(stake) ==> WholeStakes(StakeBack(stake, m))
  {
    TimesIsProduct(stake, m);
    TimesIsProduct(stake, n);
    TimesMonotone(stake, m, n);
    Distribute(stake, m);
    Distribute(stake, n);
    if WholeStakes(stake) {
      TimesWhole(stake, m);
      MultipleOfStakeAdd(stake, Times(stake, m));
    }
  }

  /** Damage colour c deals: its points once per match. */
  function ColorDamage(bets: Bets, outcome: seq<Color>, c: Color): nat
  {
    Times(Points(c), BetMatches(bets, outcome, c))
  }

  /** The stake on colour c, 0 when it carries no bet. */
  function StakeOn(bets: Bets, c: Color): nat
  {
    if c in bets then bets[c] else 0
  }

  /** The per-colour quantities a round adds up. */
  datatype Measure = Winnings | Damage | Matches | Staked

  function Term(q: Measure, bets: Bets, outcome: seq<Color>, c: Color): nat
  {
    match q
    case Winnings => Payout(bets, outcome, c)
    case Damage => ColorDamage(bets, outcome, c)
    case Matches => BetMatches(bets, outcome, c)
    case Staked => StakeOn(bets, c)
  }

  /** Sum of measure q over the colours of S. */
  function SumIn(q: Measure, bets: Bets, outcome: seq<Color>, S: set<Color>): nat
  {
    (if Red in S then Term(q, bets, outcome, Red) else 0)
    + (if Green in S then Term(q, bets, outcome, Green) else 0)
    + (if Blue in S then Term(q, bets, outcome, Blue) else 0)
    + (if Yellow in S then Term(q, bets, outcome, Yellow) else 0)
  }

  /** Adding one colour to S adds its term to the sum. */
  lemma SumInAdd(q: Measure, bets: Bets, outcome: seq<Color>, S: set<Color>, c: Color)
    requires c !in S
    ensures SumIn(q, bets, outcome, S + {c}) == SumIn(q, bets, outcome, S) + Term(q, bets, outcome, c)
  {
  }

  /** A sum is zero exactly when each of its terms is. */
  lemma SumInZero(q: Measure, bets: Bets, outcome: seq<Color>, S: set<Color>)
    ensures SumIn(q, bets, outcome, S) == 0 <==> forall c :: c in S ==> Term(q, bets, outcome, c) == 0
  {
    if SumIn(q, bets, outcome, S) == 0 {
      forall c | c in S
        ensures Term(q, bets, outcome, c) == 0
      {
        match c
        case Red =>
        case Green =>
        case Blue =>
        case Yellow =>
      }
    }
  }

  /** Terms that are all multiples of the stake add up to a multiple of the stake. */
  lemma SumInMultiple(q: Measure, bets: Bets, outcome: seq<Color>, S: set<Color>)
    requires forall c :: c in S ==> WholeStakes(Term(q, bets, outcome, c))
    ensures WholeStakes(SumIn(q, bets, outcome, S))
  {
    var r := if Red in S then Term(q, bets, outcome, Red) else 0;
    var g := if Green in S then Term(q, bets, outcome, Green) else 0;
    var b := if Blue in S then Term(q, bets, outcome, Blue) else 0;
    var y := if Yellow in S then Term(q, bets, outcome, Yellow) else 0;
    assert WholeStakes(r) && WholeStakes(g) && WholeStakes(b) && WholeStakes(y);
    MultipleOfStakeAdd(r, g);
    MultipleOfStakeAdd(r + g, b);
    MultipleOfStakeAdd(r + g + b, y);
  }

  /** A sum bounded term by term by k times another is bounded by k times that sum. */
  lemma SumInScaledBound(q: Measure, r: Measure, bets: Bets, outcome: seq<Color>, S: set<Color>, k: nat)
    requires forall c :: c in S ==> Term(q, bets, outcome, c) <= k * Term(r, bets, outcome, c)
    ensures SumIn(q, bets, outcome, S) <= k * SumIn(r, bets, outcome, S)
  {
    var a := if Red in S then Term(r, bets, outcome, Red) else 0;
    var b := if Green in S then Term(r, bets, outcome, Green) else 0;
    var c := if Blue in S then Term(r, bets, outcome, Blue) else 0;
    var d := if Yellow in S then Term(r, bets, outcome, Yellow) else 0;
    var a' := if Red in S then Term(q, bets, outcome, Red) else 0;
    var b' := if Green in S then Term(q, bets, outcome, Green) else 0;
    var c' := if Blue in S then Term(q, bets, outcome, Blue) else 0;
    var d' := if Yellow in S then Term(q, bets, outcome, Yellow) else 0;
    assert a' <= k * a && b' <= k * b && c' <= k * c && d' <= k * d;
    ScaledSum(a, b, c, d, a', b', c', d', k);
  }

  lemma ScaledSum(a: nat, b: nat, c: nat, d: nat, a': nat, b': nat, c': nat, d': nat, k: nat)
    requires a' <= k * a && b' <= k * b && c' <= k * c && d' <= k * d
    ensures a' + b' + c' + d' <= k * (a + b + c + d)
  {
    assert k * (a + b + c + d) == k * a + k * b + k * c + k * d;
  }

  /** The round's winnings: the sum of the payouts over the bet colours. */
  function RoundWinnings(bets: Bets, outcome: seq<Color>): nat
  {
    SumIn(Winnings, bets, outcome, bets.Keys)
  }

  /** The round's damage to the boss. */
  function RoundDamage(bets: Bets, outcome: seq<Color>): nat
  {
    SumIn(Damage, bets, outcome, bets.Keys)
  }

  /** Matched draws over the bet colours. */
  function RoundMatches(bets: Bets, outcome: seq<Color>): nat
  {
    SumIn(Matches, bets, outcome, bets.Keys)
  }

  /** Everything at stake in a round. */
  function TotalStake(bets: Bets): nat
  {
    SumIn(Staked, bets, [], bets.Keys)
  }

  /** An open stake is a positive number of 5-coin stakes. */
  predicate StakeOk(bets: Bets, c: Color)
  {
    c in bets ==> bets[c] > 0 && WholeStakes(bets[c])
  }

  /** Raising the stake on one colour by k raises the total at stake by k. */
  lemma StakeRaised(bets: Bets, c: Color, k: nat)
    ensures TotalStake(bets[c := StakeOn(bets, c) + k]) == TotalStake(bets) + k
  {
    var raised := bets[c := StakeOn(bets, c) + k];
    var others := bets.Keys - {c};
    assert raised.Keys == others + {c};
    SumInAdd(Staked, raised, [], others, c);
    assert SumIn(Staked, raised, [], others) == SumIn(Staked, bets, [], others);
    if c in bets {
      assert bets.Keys == others + {c};
      SumInAdd(Staked, bets, [], others, c);
    } else {
      assert bets.Keys == others;
    }
  }

  /** The balance after crediting the factions of the colours in S. */
  function Credit(balance: Balance, bets: Bets, outcome: seq<Color>, S: set<Color>): Balance
  {
    map f | f in balance :: balance[f] + (if ColorOf(f) in S then BetMatches(bets, outcome, ColorOf(f)) else 0)
  }

  /** The balance after a round: every faction credited with its colour's matches. */
  function BalanceAfter(balance: Balance, bets: Bets, outcome: seq<Color>): Balance
  {
    Credit(balance, bets, outcome, bets.Keys)
  }

  ghost predicate AllFactions(balance: Balance)
  {
    forall f: Faction :: f in balance
  }

  function BalanceTotal(balance: Balance): nat
    requires AllFactions(balance)
  {
    balance[Fire] + balance[Water] + balance[Nature] + balance[Light]
  }

  /** The accumulation loop of a round: visits the bet colours one at a time, in
      any order, adding up winnings and damage and crediting factions. */
  method Tally(bets: Bets, outcome: seq<Color>, balance: Balance)
    returns (winnings: nat, damage: nat, newBalance: Balance)
    requires AllFactions(balance)
    ensures winnings == RoundWinnings(bets, outcome)
    ensures damage == RoundDamage(bets, outcome)
    ensures newBalance == BalanceAfter(balance, bets, outcome) && AllFactions(newBalance)
  {
    winnings, damage, newBalance := 0, 0, balance;
    var remaining := bets.Keys;
    ghost var done: set<Color> := {};
    while remaining != {}
      invariant done !! remaining && done + remaining == bets.Keys
      invariant winnings == SumIn(Winnings, bets, outcome, done)
      invariant damage == SumIn(Damage, bets, outcome, done)
      invariant AllFactions(newBalance)
      invariant newBalance == Credit(balance, bets, outcome, done)
      decreases remaining
    {
      var c :| c in remaining;
      TallyStep(balance, bets, outcome, done, c);
      var matches := Count(outcome, c);
      if matches > 0 {
        var betAmount := bets[c];
        winnings := winnings + StakeBack(betAmount, matches);
        var faction := FactionOf(c);
        newBalance := newBalance[faction := newBalance[faction] + matches];
        damage := damage + Times(Points(c), matches);
      }
      remaining := remaining - {c};
      done := done + {c};
    }
    assert done == bets.Keys;
  }

  /** Visiting one more bet colour adds its payout and damage and credits its faction. */
  lemma TallyStep(balance: Balance, bets: Bets, outcome: seq<Color>, S: set<Color>, c: Color)
    requires AllFactions(balance) && c !in S && c in bets
    ensures var m := Count(outcome, c);
            && SumIn(Winnings, bets, outcome, S + {c})
               == SumIn(Winnings, bets, outcome, S) + (if m > 0 then StakeBack(bets[c], m) else 0)
            && SumIn(Damage, bets, outcome, S + {c})
               == SumIn(Damage, bets, outcome, S) + (if m > 0 then Times(Points(c), m) else 0)
            && var b := Credit(balance, bets, outcome, S);
               Credit(balance, bets, outcome, S + {c})
               == if m > 0 then b[FactionOf(c) := b[FactionOf(c)] + m] else b
  {
    SumInAdd(Winnings, bets, outcome, S, c);
    SumInAdd(Damage, bets, outcome, S, c);
    CreditStep(balance, bets, outcome, S, c);
    var b := Credit(balance, bets, outcome, S);
    assert b[FactionOf(c) := b[FactionOf(c)] + 0] == b;
  }

  /** Crediting one more colour changes only its own faction's entry. */
  lemma CreditStep(balance: Balance, bets: Bets, outcome: seq<Color>, S: set<Color>, c: Color)
    requires AllFactions(balance) && c !in S && c in bets
    ensures var b := Credit(balance, bets, outcome, S);
            var f := FactionOf(c);
            Credit(balance, bets, outcome, S + {c})
            == b[f := b[f] + Count(outcome, c)]
  {
    var b := Credit(balance, bets, outcome, S);
    var after := Credit(balance, bets, outcome, S + {c});
    var f0 := FactionOf(c);
    var expected := b[f0 := b[f0] + Count(outcome, c)];
    assert after.Keys == expected.Keys;
    forall f | f in balance
      ensures after[f] == expected[f]
    {
      CreditEntry(balance, bets, outcome, S, c, f);
    }
  }

  /** One faction's entry after crediting one more colour. */
  lemma CreditEntry(balance: Balance, bets: Bets, outcome: seq<Color>, S: set<Color>, c: Color, f: Faction)
    requires f in balance && c !in S && c in bets
    ensures Credit(balance, bets, outcome, S + {c})[f]
            == Credit(balance, bets, outcome, S)[f] + (if f == FactionOf(c) then Count(outcome, c) else 0)
  {
    SlotTable(c, f);
  }

  /** The match count is the multiplicity of the colour in the drawn multiset. */
  lemma {:induction false} CountIsMultiplicity(outcome: seq<Color>, c: Color)
    ensures Count(outcome, c) == multiset(outcome)[c]
  {
    if outcome != [] {
      CountIsMultiplicity(outcome[1..], c);
      assert outcome == [outcome[0]] + outcome[1..];
    }
  }

  /** Every draw matches exactly one colour: the four match counts add up to the draw size. */
  lemma {:induction false} CountsPartition(outcome: seq<Color>)
    ensures Count(outcome, Red) + Count(outcome, Green) + Count(outcome, Blue) + Count(outcome, Yellow)
            == |outcome|
  {
    if outcome != [] {
      CountsPartition(outcome[1..]);
    }
  }

  /** A round matches at most one bet colour per draw, so at most three matches
      and at most 30 damage in a round of three draws. */
  lemma MatchesBound(bets: Bets, outcome: seq<Color>)
    ensures RoundMatches(bets, outcome) <= |outcome|
    ensures RoundDamage(bets, outcome) == 10 * RoundMatches(bets, outcome)
    ensures RoundMatches(bets, outcome) == 0 <==> forall c :: c in bets ==> c !in outcome
  {
    CountsPartition(outcome);
    SumInZero(Matches, bets, outcome, bets.Keys);
    forall c
      ensures ColorDamage(bets, outcome, c) == 10 * BetMatches(bets, outcome, c)
    {
      SlotTable(c, FactionOf(c));
      TimesIsProduct(Points(c), BetMatches(bets, outcome, c));
    }
  }

  /** One bet of stake s on colour c: nothing on a miss, s + s*m on m matches. */
  lemma SingleBetPayout(c: Color, s: nat, outcome: seq<Color>)
    ensures var m := Count(outcome, c);
            RoundWinnings(map[c := s], outcome) == if m == 0 then 0 else s * (1 + m)
    ensures s == Stake && Count(outcome, c) == 1 ==> RoundWinnings(map[c := s], outcome) == 10
    ensures s == Stake && Count(outcome, c) == 2 ==> RoundWinnings(map[c := s], outcome) == 15
    ensures s == Stake && Count(outcome, c) == 3 ==> RoundWinnings(map[c := s], outcome) == 20
  {
    var bets := map[c := s];
    assert bets.Keys == {c};
    var m := Count(outcome, c);
    assert RoundWinnings(bets, outcome) == Payout(bets, outcome, c);
    StakeBackRange(s, m, m);
  }

  /** The round pays something exactly when some bet colour was drawn (every open stake is positive). */
  lemma WinIffHit(bets: Bets, outcome: seq<Color>)
    requires forall c :: StakeOk(bets, c)
    ensures RoundWinnings(bets, outcome) > 0 <==> exists c :: c in bets && c in outcome
  {
    SumInZero(Winnings, bets, outcome, bets.Keys);
    forall c | c in bets
      ensures Payout(bets, outcome, c) > 0 <==> c in outcome
    {
      assert StakeOk(bets, c);
      StakeBackRange(bets[c], Count(outcome, c), Count(outcome, c));
    }
  }

  /** Stakes in multiples of 5 pay back multiples of 5. */
  lemma WinningsMultipleOfStake(bets: Bets, outcome: seq<Color>)
    requires forall c :: StakeOk(bets, c)
    ensures WholeStakes(RoundWinnings(bets, outcome))
  {
    forall c | c in bets
      ensures WholeStakes(Term(Winnings, bets, outcome, c))
    {
      assert StakeOk(bets, c);
      var m := Count(outcome, c);
      StakeBackRange(bets[c], m, m);
    }
    SumInMultiple(Winnings, bets, outcome, bets.Keys);
  }

  /** A round pays back at most (draws + 1) times what was staked. */
  lemma WinningsBound(bets: Bets, outcome: seq<Color>)
    ensures RoundWinnings(bets, outcome) <= (|outcome| + 1) * TotalStake(bets)
  {
    var n := |outcome|;
    forall c | c in bets
      ensures Term(Winnings, bets, outcome, c) <= (n + 1) * Term(Staked, bets, outcome, c)
    {
      StakeBackRange(bets[c], Count(outcome, c), n);
    }
    assert TotalStake(bets) == SumIn(Staked, bets, outcome, bets.Keys);
    SumInScaledBound(Winnings, Staked, bets, outcome, bets.Keys, n + 1);
  }

  /** Each faction grows by the matches of its own colour, only when that colour
      was bet; no faction decreases, and the total grows by the round's matches. */
  lemma BalanceGrowth(balance: Balance, bets: Bets, outcome: seq<Color>)
    requires AllFactions(balance)
    ensures AllFactions(BalanceAfter(balance, bets, outcome))
    ensures forall f :: BalanceAfter(balance, bets, outcome)[f]
                        == balance[f] + (if ColorOf(f) in bets then Count(outcome, ColorOf(f)) else 0)
    ensures forall f :: BalanceAfter(balance, bets, outcome)[f] >= balance[f]
    ensures BalanceTotal(BalanceAfter(balance, bets, outcome)) == BalanceTotal(balance) + RoundMatches(bets, outcome)
  {
  }
}
