# Color Game Royale — round engine model

A Dafny model of the round engine of Color Game Royale, a browser colour-betting
game. The player drops a coin, picks a champion, then plays rounds. In a round
the player stakes coins in 5-coin clicks on four colours (red, green, blue and
yellow), then drops three balls. Every bet colour drawn at least once pays back
its stake plus the stake once per matching ball. Each matching ball also strikes
the boss Umbra for the colour's points (10) and credits the colour's faction
(Fire, Nature, Water or Light). The session keeps a score, a purse, the boss's
hit points, the faction balance, the draw history and a win streak.

The model has three modules:

- `Slots` (`slots.dfy`) holds the colour table, the phase enumeration and the
  divisibility facts about the 5-coin stake.
- `Round` (`round.dfy`) holds the resolver. `Tally` is the accumulation loop of
  `calculateResults`, written as a method that visits the bet colours in any
  order. It is proved equal to order-free sums (`RoundWinnings`, `RoundDamage`)
  and a credited balance (`BalanceAfter`). The properties of a round are lemmas
  about those functions.
- `Session` (`session.dfy`) holds the game record `GameState` and one pure
  function per functional updater the handlers pass to `setGameState`. It also
  holds the `GameSession` class, whose methods are the command handlers. The
  class keeps the record, the chosen champion, the `showResult` flag and the
  pending coin-drop step. Its invariant `Valid` includes `StateOk`, which says:
  - the purse and the score are non-negative multiples of 5;
  - every open stake is a positive multiple of 5;
  - the boss's hit points stay in 0..1000;
  - every faction has an entry;
  - the history holds whole rounds and ends with the last result;
  - the phase only leaves the title screen once a coin is in.

The handlers guard the purse only with `coins <= 0`. The purse still never goes
negative, because it starts at 100 and every stake and payout is a multiple of 5
(`BetKeepsOk`, `RoundKeepsOk`). A purse that is positive but smaller than one
stake therefore cannot occur.

## Model

| member | source | states |
|---|---|---|
| Slots.FactionOf | components/ColorGameRoyale.tsx:12-17 | the faction column of the slot table: red is Fire, green Nature, blue Water, yellow Light |
| Slots.Points | components/ColorGameRoyale.tsx:12-17 | the points column of the slot table: every colour is worth 10 |
| Slots.ColorOf | components/ColorGameRoyale.tsx:12-17 | the faction-to-colour lookup returns the slot whose faction is the given one |
| Slots.SlotTable | components/ColorGameRoyale.tsx:12-17 | the slot table is a bijection between colours and factions, and every colour is worth 10 points |
| Slots.Rank | types.ts:10 | phases are ordered title < champion-select < playing, and rank 0 is exactly the title screen |
| Round.Count | components/ColorGameRoyale.tsx:95 | the matches of a colour are at most the number of balls, and zero exactly when the colour was not drawn |
| Round.CountIsMultiplicity | components/ColorGameRoyale.tsx:95 | the match count of a colour is its multiplicity in the draw |
| Round.CountsPartition | components/ColorGameRoyale.tsx:95 | every ball matches exactly one colour, so the four counts add up to the number of balls |
| Round.StakeBackRange | components/ColorGameRoyale.tsx:97-98 | a winning stake s with m matches pays s*(1+m), between s and (n+1)*s when m <= n, and a multiple of 5 when s is |
| Round.StakeBack | components/ColorGameRoyale.tsx:97-98 | a winning stake comes back with one more stake per match, `betAmount + betAmount * matches` |
| Round.Payout | components/ColorGameRoyale.tsx:95-98 | what one colour adds to the winnings: nothing unless it was bet and matched, otherwise its stake back |
| Round.RoundWinnings | components/ColorGameRoyale.tsx:94-99 | the winnings of a round: the payouts summed over the bet colours |
| Round.ColorDamage | components/ColorGameRoyale.tsx:100-102 | the damage one bet colour deals: its points once per match |
| Round.RoundDamage | components/ColorGameRoyale.tsx:94-102 | the damage of a round: the colour damages summed over the bet colours |
| Round.Credit | components/ColorGameRoyale.tsx:92-101 | the copied balance with each faction of a colour in the visited set raised by that colour's matches |
| Round.BalanceAfter | components/ColorGameRoyale.tsx:92-101 | the balance after a round: every bet colour's faction credited with its matches |
| Round.Tally | components/ColorGameRoyale.tsx:89-104 | the accumulation loop over the bets, in any visiting order, yields exactly the round's winnings, damage and credited balance, and the balance keeps all four factions |
| Round.StakeRaised | components/ColorGameRoyale.tsx:59-62 | raising the stake on one colour by k raises the total at stake by exactly k |
| Round.MatchesBound | components/ColorGameRoyale.tsx:95-102 | a round has at most one match per ball, deals 10 damage per match, and has no match exactly when no bet colour was drawn |
| Round.SingleBetPayout | components/ColorGameRoyale.tsx:96-99 | a single bet of s pays nothing on a miss and s*(1+m) on m matches, so 10, 15 and 20 for a 5-coin bet hit once, twice and three times |
| Round.WinIffHit | components/ColorGameRoyale.tsx:96-98 | with positive stakes, the round pays something exactly when some bet colour was drawn |
| Round.WinningsMultipleOfStake | components/ColorGameRoyale.tsx:58-61 | stakes in multiples of 5 pay back a multiple of 5 |
| Round.WinningsBound | components/ColorGameRoyale.tsx:98 | a round pays back at most (balls + 1) times the total stake |
| Round.BalanceGrowth | components/ColorGameRoyale.tsx:92-101 | each faction gains the matches of its own colour if it was bet and nothing otherwise; no faction decreases; the total grows by the round's matches |
| Session.StateOk | components/ColorGameRoyale.tsx:20-121 | the invariant every handler keeps: purse and score are non-negative multiples of 5, open stakes are positive multiples of 5, a roll needs a bet, the boss stays in 0..1000, all factions are present, the history is whole rounds ending with the last result, and play starts only after a coin |
| Session.Initial | components/ColorGameRoyale.tsx:20-35 | the record the screen starts from: title screen, no coin, score 0, purse 100, boss at 1000 of 1000, factions at 0, no bets, empty history, no roll, streak 0 |
| Session.Bet | components/ColorGameRoyale.tsx:56-63 | the bet updater: purse down 5, the colour's stake (0 when absent) up 5 |
| Session.StartRoll | components/ColorGameRoyale.tsx:76 | the roll updater: the roll is in flight |
| Session.Settle | components/ColorGameRoyale.tsx:106-119 | the closing updater: score and purse plus the winnings, boss at `max(0, hp - damage)`, draw appended and kept as last result, roll over, bets cleared, credited balance, streak up on a win and 0 otherwise |
| Session.Resolved | components/ColorGameRoyale.tsx:89-119 | the closing updater applied to what the tally of the bets against the draw yields |
| Session.CoinIn | components/ColorGameRoyale.tsx:130 | the coin updater: the coin flag is set |
| Session.ToChampionSelect | components/ColorGameRoyale.tsx:132 | the deferred coin-drop updater: the phase becomes champion-select |
| Session.EnterPlay | components/ColorGameRoyale.tsx:138 | the champion updater: the phase becomes playing |
| Session.InitialOk | components/ColorGameRoyale.tsx:20-35 | the starting record satisfies the session invariant, with a purse of 100 on the title screen |
| Session.BetMovesOneStake | components/ColorGameRoyale.tsx:56-63 | a bet takes exactly 5 coins from the purse and adds exactly 5 to that colour's stake; other stakes, purse plus total stake, and every other field are unchanged |
| Session.BetKeepsOk | components/ColorGameRoyale.tsx:53-63 | a bet that passes the `coins > 0` guard keeps the invariant, so the purse stays a non-negative multiple of 5 |
| Session.RoundKeepsOk | components/ColorGameRoyale.tsx:106-119 | closing a round keeps the session invariant |
| Session.RoundPays | components/ColorGameRoyale.tsx:96-118 | score and purse rise by the same winnings; the winnings are a multiple of 5, positive exactly when a bet colour was drawn, and at most four times the stake; the streak grows on a win and resets otherwise |
| Session.RoundStrikes | components/ColorGameRoyale.tsx:100-116 | the boss loses 10 hit points per match, floored at zero and never rising; each faction gains its colour's matches, and the total grows by all matches (at most 3) |
| Session.RoundRecords | components/ColorGameRoyale.tsx:112-115 | the draw is appended to the history and becomes the last result, the bets are cleared, the roll ends, and phase, coin flag and boss maximum are unchanged |
| Session.ExampleRound | components/ColorGameRoyale.tsx:53-139 | from the title screen, one 5-coin bet on red and a draw of red, green, red leave purse 110, score 15, boss 980, streak 1 and Fire 2 |
| Session.GameSession.constructor | components/ColorGameRoyale.tsx:19-39 | the screen mounts with the initial record, no champion, the result hidden and the invariant holding |
| Session.GameSession.PlaceBet | components/ColorGameRoyale.tsx:53-64 | a bet is accepted exactly when the purse is positive and no roll is in flight; a refused bet changes nothing; an accepted one applies the bet updater and keeps the purse non-negative |
| Session.GameSession.Roll | components/ColorGameRoyale.tsx:73-78 | a roll starts exactly when some bet is open and no roll is in flight, and then hides the last result; a refused roll changes nothing |
| Session.GameSession.Resolve | components/ColorGameRoyale.tsx:80-121 | the deferred step of a started roll settles the three drawn balls only while the roll is in flight; it gives the resolved record, shows the result, keeps the invariant, raises score and purse by the round's winnings, clears the table and ends the roll, so it settles each roll once |
| Session.GameSession.InsertCoin | components/ColorGameRoyale.tsx:129-133 | the first coin sets the flag and schedules the move to champion selection; later clicks change nothing |
| Session.GameSession.CoinDropTimer | components/ColorGameRoyale.tsx:131-133 | the scheduled step moves the title screen to champion selection, and the phase never moves back |
| Session.GameSession.SelectChampion | components/ColorGameRoyale.tsx:136-139 | choosing a champion records it and enters play, which moves the phase strictly forward |

## Left out

- Rendering, the 6x6 grid of random colours, the star background and every other piece of markup.
- `Math.random`: the three drawn colours are a parameter of `Resolve`, and `ExampleRound` fixes one draw.
- `setTimeout`: the 800 ms coin drop is `CoinDropTimer`, which fires only while it is pending. The 2.5-second ball drop is `Resolve`, which fires only while a roll is in flight; its delay is not modelled.
- The oracle: `triggerOracle`, the advice it stores, its thinking flag and the remote service in `services/geminiService.ts` are not part of this model.
- `roundTimer` and `activeBuff` of the game record: the round engine never changes them.
- `Number(...)` coercions of stake values: stakes are natural numbers, so coercion never matters.
- The percentage bars computed from the faction balance, which use floating point.
- `App.tsx` and the slingshot types in `types.ts` are not part of this model.
- The iteration order of `Object.entries`: `Tally` visits the bet colours in any order, which covers insertion order.
- Stale closures: the handlers test, and `calculateResults` computes from, the `gameState` captured at the last render: its `activeBets` and `elementalBalance` are those of the render in which the drop button was clicked. The model reads the current record instead. This changes nothing: `handlePlaceBet` refuses bets while `isRolling` is true, so the bets cannot change during the drop, and only `calculateResults` writes `elementalBalance`.
- Phase gating of the betting panels and the drop button: they are only rendered during play, but the handlers do not check the phase, so `PlaceBet`, `Roll` and `Resolve` do not require it.
