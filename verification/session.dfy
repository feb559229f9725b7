/** The game session: the game record that the command handlers of the game
    screen replace through functional updates, and the screen object that holds
    it together with the few values kept beside it. */
module Session {
  import opened Slots
  import opened Round

  datatype Option<T> = None | Some(value: T)

  /** The purse a session starts with. */
  const StartCoins: int := 100

  /** The boss's hit points at the start of a session. */
  const StartHp: int := 1000

  /** The game record. Its round timer and active buff are never changed by the
      round engine and are not part of this model. */
  datatype GameState = GameState(
    phase: GamePhase,
    hasInsertedCoin: bool,
    score: int,
    coins: int,
    umbraHp: int,
    umbraMaxHp: int,
    elementalBalance: Balance,
    activeBets: Bets,
    history: seq<Color>,
    lastResult: seq<Color>,
    isRolling: bool,
    streakCount: nat)

  /** The invariant of the game record. The purse is checked only against
      `coins <= 0` before a stake is taken, yet it never goes negative: it starts
      at 100 and every stake and every payout is a multiple of 5. */
  ghost predicate StateOk(s: GameState)
  {
    && s.coins >= 0 && WholeStakes(s.coins)
    && s.score >= 0 && WholeStakes(s.score)
    && (forall c :: StakeOk(s.activeBets, c))
    && (s.isRolling ==> s.activeBets != map[])
    && s.umbraMaxHp == StartHp && 0 <= s.umbraHp <= s.umbraMaxHp
    && AllFactions(s.elementalBalance)
    && WholeRounds(|s.history|)
    && (s.lastResult == [] || (|s.lastResult| == DrawSize <= |s.history| && s.history[|s.history| - DrawSize..] == s.lastResult))
    && (s.phase != Title ==> s.hasInsertedCoin)
  }

  /** The record a session starts from. */
  function Initial(): GameState
  {
    GameState(Title, false, 0, StartCoins, StartHp, StartHp,
              map[Fire := 0, Water := 0, Nature := 0, Light := 0],
              map[], [], [], false, 0)
  }

  /** The updater of a bet: one stake leaves the purse and joins the stake on c. */
  function Bet(s: GameState, c: Color): GameState
  {
    s.(coins := s.coins - Stake, activeBets := s.activeBets[c := StakeOn(s.activeBets, c) + Stake])
  }

  /** The updater that starts a roll. */
  function StartRoll(s: GameState): GameState
  {
    s.(isRolling := true)
  }

  /** The updater that closes a round, given what the tally loop produced:
      winnings go to score and purse, the boss loses the damage (never below
      zero), the draw is recorded, the table is cleared and the streak moves. */
  function Settle(s: GameState, roundWinnings: nat, totalDamage: nat, newBalance: Balance, results: seq<Color>): GameState
  {
    s.(score := s.score + roundWinnings,
       coins := s.coins + roundWinnings,
       umbraHp := if s.umbraHp - totalDamage > 0 then s.umbraHp - totalDamage else 0,
       history := s.history + results,
       lastResult := results,
       isRolling := false,
       activeBets := map[],
       elementalBalance := newBalance,
       streakCount := if roundWinnings > 0 then s.streakCount + 1 else 0)
  }

  /** The record a round against the drawn colours leaves behind. */
  function Resolved(s: GameState, outcome: seq<Color>): GameState
  {
    Settle(s, RoundWinnings(s.activeBets, outcome), RoundDamage(s.activeBets, outcome),
           BalanceAfter(s.elementalBalance, s.activeBets, outcome), outcome)
  }

  /** The updater of a coin dropped into the slot. */
  function CoinIn(s: GameState): GameState
  {
    s.(hasInsertedCoin := true)
  }

  /** The updater of the deferred step that leaves the title screen. */
  function ToChampionSelect(s: GameState): GameState
  {
    s.(phase := ChampionSelect)
  }

  /** The updater of a champion choice. */
  function EnterPlay(s: GameState): GameState
  {
    s.(phase := Playing)
  }

  /** The starting record satisfies the invariant: a full purse, no score, the
      boss at full health and every faction at zero. */
  lemma {:induction false} InitialOk()
    ensures StateOk(Initial())
    ensures Initial().coins == StartCoins && Rank(Initial().phase) == 0
  {
    forall f: Faction
      ensures f in Initial().elementalBalance
    {
      match f
      case Fire =>
      case Water =>
      case Nature =>
      case Light =>
    }
  }

  /** A bet moves exactly one stake from the purse to the table: the stake on c
      rises by 5, no other stake moves, the purse falls by 5 and nothing else
      changes. */
  lemma BetMovesOneStake(s: GameState, c: Color)
    ensures var n := Bet(s, c);
            && n.coins == s.coins - Stake
            && StakeOn(n.activeBets, c) == StakeOn(s.activeBets, c) + Stake
            && (forall d :: d != c ==> StakeOn(n.activeBets, d) == StakeOn(s.activeBets, d))
            && n.coins + TotalStake(n.activeBets) == s.coins + TotalStake(s.activeBets)
            && n.(coins := s.coins, activeBets := s.activeBets) == s
  {
    StakeRaised(s.activeBets, c, Stake);
  }

  /** A bet accepted by the `coins > 0` guard keeps the record valid; in
      particular the purse never goes negative. */
  lemma BetKeepsOk(s: GameState, c: Color)
    requires StateOk(s) && s.coins > 0
    ensures StateOk(Bet(s, c)) && Bet(s, c).coins >= 0
  {
    var prior := StakeOn(s.activeBets, c);
    assert StakeOk(s.activeBets, c);
    MultipleOfStakeAdd(prior, Stake);
    MultipleOfStakeAdd(s.coins, Stake);
    var n := Bet(s, c);
    forall d
      ensures StakeOk(n.activeBets, d)
    {
      assert StakeOk(s.activeBets, d);
    }
  }

  /** A round keeps the record valid. */
  lemma RoundKeepsOk(s: GameState, outcome: seq<Color>)
    requires StateOk(s) && |outcome| == DrawSize
    ensures StateOk(Resolved(s, outcome))
  {
    var w := RoundWinnings(s.activeBets, outcome);
    WinningsMultipleOfStake(s.activeBets, outcome);
    MultipleOfStakeAdd(s.score, w);
    MultipleOfStakeAdd(s.coins, w);
    BalanceGrowth(s.elementalBalance, s.activeBets, outcome);
    var n := Resolved(s, outcome);
    assert n.history[|n.history| - DrawSize..] == outcome;
  }

  /** What a round pays: score and purse both rise by the winnings, a multiple
      of the stake that is positive exactly when some bet colour was drawn, and
      the streak grows on a win and resets otherwise. */
  lemma RoundPays(s: GameState, outcome: seq<Color>)
    requires StateOk(s) && |outcome| == DrawSize
    ensures var n := Resolved(s, outcome);
            var w := RoundWinnings(s.activeBets, outcome);
            var hit := exists c :: c in s.activeBets && c in outcome;
            && n.score - s.score == n.coins - s.coins == w
            && WholeStakes(w)
            && (w > 0 <==> hit)
            && n.streakCount == (if hit then s.streakCount + 1 else 0)
            && w <= (DrawSize + 1) * TotalStake(s.activeBets)
  {
    WinningsMultipleOfStake(s.activeBets, outcome);
    WinIffHit(s.activeBets, outcome);
    WinningsBound(s.activeBets, outcome);
  }

  /** What a round does to the boss and the factions: the boss loses 10 hit
      points per matched ball, floored at zero; every faction gains the matches
      of its colour, none loses, and the total grows by all the matches. */
  lemma RoundStrikes(s: GameState, outcome: seq<Color>)
    requires StateOk(s) && |outcome| == DrawSize
    ensures var n := Resolved(s, outcome);
            var m := RoundMatches(s.activeBets, outcome);
            && n.umbraHp == (if s.umbraHp > 10 * m then s.umbraHp - 10 * m else 0)
            && n.umbraHp <= s.umbraHp
            && m <= DrawSize
            && AllFactions(n.elementalBalance)
            && (forall f :: n.elementalBalance[f] == s.elementalBalance[f] + BetMatches(s.activeBets, outcome, ColorOf(f)))
            && BalanceTotal(n.elementalBalance) == BalanceTotal(s.elementalBalance) + m
  {
    MatchesBound(s.activeBets, outcome);
    BalanceGrowth(s.elementalBalance, s.activeBets, outcome);
  }

  /** What a round records: the draw is appended to the history and becomes the
      last result, the table is cleared, the roll is over, and the phase, the
      coin flag and the boss's maximum are untouched. */
  lemma RoundRecords(s: GameState, outcome: seq<Color>)
    ensures var n := Resolved(s, outcome);
            && n.history == s.history + outcome && n.lastResult == outcome
            && n.history[|s.history|..] == outcome
            && n.activeBets == map[] && TotalStake(n.activeBets) == 0 && !n.isRolling
            && n.phase == s.phase && n.hasInsertedCoin == s.hasInsertedCoin && n.umbraMaxHp == s.umbraMaxHp
  {
    SumInZero(Staked, map[], [], {});
  }

  /** One session from the title screen through a round: a 5-coin bet on red
      and a draw of red, green, red pay 15, strike the boss for 20 and credit
      Fire with 2. */
  lemma {:induction false} ExampleRound()
    ensures Resolved(StartRoll(Bet(EnterPlay(ToChampionSelect(CoinIn(Initial()))), Red)), [Red, Green, Red])
            == GameState(Playing, true, 15, 110, 980, 1000,
                         map[Fire := 2, Water := 0, Nature := 0, Light := 0],
                         map[], [Red, Green, Red], [Red, Green, Red], false, 1)
  {
    var outcome := [Red, Green, Red];
    var zero := map[Fire := 0, Water := 0, Nature := 0, Light := 0];
    var p := StartRoll(Bet(EnterPlay(ToChampionSelect(CoinIn(Initial()))), Red));
    var bets := map[Red := 5];
    assert p == GameState(Playing, true, 0, 95, 1000, 1000, zero, bets, [], [], true, 0);
    assert Count(outcome, Red) == 2;
    assert bets.Keys == {Red};
    assert RoundWinnings(bets, outcome) == 15;
    assert RoundDamage(bets, outcome) == 20;
    var credited := BalanceAfter(zero, bets, outcome);
    var expected := map[Fire := 2, Water := 0, Nature := 0, Light := 0];
    assert credited.Keys == expected.Keys;
    forall f | f in zero
      ensures credited[f] == expected[f]
    {
      match f
      case Fire =>
      case Water =>
      case Nature =>
      case Light =>
    }
    assert credited == expected;
  }

  /** The game screen: the game record plus the champion and the result flag,
      which the screen keeps beside it, and the pending step that inserting a
      coin schedules. */
  class GameSession {
    var state: GameState
    var champion: Option<Champion>
    var showResult: bool
    /** The deferred step scheduled by inserting the coin has not fired yet. */
    var coinDropPending: bool

    ghost predicate Valid()
      reads this
    {
      && StateOk(state)
      && (coinDropPending ==> state.phase == Title && state.hasInsertedCoin)
      && (state.phase != Title ==> !coinDropPending)
      && (state.phase == Playing ==> champion.Some?)
    }

    /** The screen as it mounts. */
    constructor ()
      ensures Valid()
      ensures state == Initial() && champion == None && !showResult && !coinDropPending
    {
      state := Initial();
      champion := None;
      showResult := false;
      coinDropPending := false;
      new;
      InitialOk();
    }

    /** Click on a betting panel: a stake of 5 on colour c, refused while the
        purse is empty or a roll is in flight. */
    method PlaceBet(c: Color) returns (placed: bool)
      requires Valid()
      modifies this`state
      ensures Valid()
      ensures placed <==> old(state).coins > 0 && !old(state).isRolling
      ensures state == if placed then Bet(old(state), c) else old(state)
      ensures placed ==> state.coins == old(state).coins - Stake && state.coins >= 0
      ensures placed ==> TotalStake(state.activeBets) == TotalStake(old(state).activeBets) + Stake
    {
      if state.coins <= 0 || state.isRolling {
        return false;
      }
      BetKeepsOk(state, c);
      BetMovesOneStake(state, c);
      state := Bet(state, c);
      placed := true;
    }

    /** Drop the balls: refused with no bet on the table or a roll in flight;
        otherwise the roll starts and the last result is hidden. */
    method Roll() returns (started: bool)
      requires Valid()
      modifies this`state, this`showResult
      ensures Valid()
      ensures started <==> old(state).activeBets != map[] && !old(state).isRolling
      ensures started ==> state == StartRoll(old(state)) && state.isRolling && !showResult
      ensures !started ==> state == old(state) && showResult == old(showResult)
    {
      if |state.activeBets.Keys| == 0 || state.isRolling {
        return false;
      }
      state := StartRoll(state);
      showResult := false;
      started := true;
    }

    /** The deferred step a started roll schedules: settle the round against
        the three drawn colours and show the result. It fires only while the
        roll is in flight, and settling ends the roll, so it fires once per roll. */
    method Resolve(outcome: seq<Color>)
      requires Valid() && state.isRolling && |outcome| == DrawSize
      modifies this`state, this`showResult
      ensures Valid()
      ensures state == Resolved(old(state), outcome) && showResult
      ensures state.coins - old(state).coins == state.score - old(state).score == RoundWinnings(old(state).activeBets, outcome)
      ensures state.activeBets == map[] && !state.isRolling && state.history == old(state).history + outcome
    {
      var roundWinnings, totalDamage, newBalance := Tally(state.activeBets, outcome, state.elementalBalance);
      RoundKeepsOk(state, outcome);
      state := Settle(state, roundWinnings, totalDamage, newBalance, outcome);
      showResult := true;
    }

    /** Click on the coin slot of the title screen. The button is disabled once a
        coin is in, so a second click changes nothing; the first one sets the
        flag and schedules the move to champion selection. */
    method InsertCoin()
      requires Valid()
      modifies this`state, this`coinDropPending
      ensures Valid()
      ensures state.hasInsertedCoin
      ensures old(state).hasInsertedCoin ==> state == old(state) && coinDropPending == old(coinDropPending)
      ensures !old(state).hasInsertedCoin ==> state == CoinIn(old(state)) && coinDropPending
    {
      if state.hasInsertedCoin {
        return;
      }
      state := CoinIn(state);
      coinDropPending := true;
    }

    /** The deferred step of inserting a coin: when it is pending it moves the
        title screen on to champion selection. */
    method CoinDropTimer()
      requires Valid()
      modifies this`state, this`coinDropPending
      ensures Valid()
      ensures !coinDropPending
      ensures old(coinDropPending) ==> old(state).phase == Title && state == ToChampionSelect(old(state))
      ensures !old(coinDropPending) ==> state == old(state)
      ensures Rank(state.phase) >= Rank(old(state).phase)
    {
      if coinDropPending {
        state := ToChampionSelect(state);
        coinDropPending := false;
      }
    }

    /** Pick a champion on the champion-select screen (the only screen that
        offers the choice) and enter play. */
    method SelectChampion(ch: Champion)
      requires Valid() && state.phase == ChampionSelect
      modifies this`champion, this`state
      ensures Valid()
      ensures champion == Some(ch) && state == EnterPlay(old(state))
      ensures Rank(state.phase) > Rank(old(state).phase)
    {
      champion := Some(ch);
      state := EnterPlay(state);
    }
  }
}
