# A verified model of the duel world

NYTRPG is a small shared world where players walk around, see each other, and challenge each
other to duels: two players race to solve a Wordle, earning energy for letters and spending it
on about twenty abilities that change both boards. Ranked duels change elo. This project models
the parts of its server that have to keep state straight, and proves that they do.

What is here, by file:

- `wordle.dfy`: scoring a guess. A closed form for the colors, the two counting loops that
  compute it, and a proof that a coloring which keeps Wordle's promises is unique, so that
  every correct scorer gives the same colors.
- `elo.dfy`: expected score, margins, changes, settlement and stakes, over reals.
- `boards.dfy`: one side of a duel as a value; what its parts mean together (real and faked
  colors, what was found, destroyed letters, Seeing Eyes, keyboards); and the laws of learning,
  aiming and mending.
- `duel_side.dfy`, `duel_rules.dfy`, `duel_safety.dfy`, `duel_turns.dfy`,
  `duel_history.dfy`, `duel.dfy`: the duel engine. `DuelSide`
  and `Duel` are classes with the source's fields and methods. `DuelRules` says, on values and
  for any roll of the dice, what each command does; `DuelSafety` proves every one of those
  effects keeps the duel consistent; each method is proved to have that effect. `DuelTurns` says
  when a turn is by the rules and what its letters paid; `DuelHistory` what either side can count
  on over any history of such turns.
- `missiles.dfy`, `duel_frames.dfy`, `duel_lasting.dfy`, `duel_curses.dfy`, `duel_powers.dfy`: what
  abilities, passives and time come to, in numbers, and for how many turns: when a guess is faked,
  a cast refused, a side held up, a missile landed, a shield down, a duel over.
- `counterexamples.dfy`: what the duel does not promise, on boards of five letters.
- `lobby.dfy`: challenges, duels starting and ending, settlement, joining and leaving.
- `prayers.dfy`: a prayer to the oracle as an asynchronous protocol, under every interleaving.
- `ranges.dfy`, `grid.dfy`, `world_updates.dfy`, `replication.dfy`: the spatial grid, the
  deltas sent each tick, and the client that applies them.
- `movement.dfy`: the movement allowance, over every run of moves.
- `ranked_queue.dfy`: the ranked write queue, its worker and its callers, as interleaved steps.
- `dailies.dfy`: the daily puzzle's server side record.

Main results:

- **Every reachable duel is consistent** (`Duels.Duel.Play`): through guesses, all twenty
  abilities, fates, picks, illusions, ticks and refunds, each guess's real colors are its score
  against its owner's current word, what a side has found covers what its guesses show, every
  Seeing Eye that is on watches an existing letter that is neither green nor destroyed, energy
  is never negative, a live duel always has somebody who can guess, nobody runs out of rows but
  by guessing, every command is answered and carried out by the rules, and letters never pay more than the word is worth, since it was set or the slate
  wiped. What they paid is read off the history of turns `Play` returns.
- **What is done lasts as long as it should, and no longer**: over any history of turns, a Feint and
  an Under Their Nose fake the next guess and no other, for the right player
  (`DuelLasting.FeintFools`, `DuelLasting.NoseFools`, `DuelCurses.FakesAreOver`); a silence, a
  stun and an illusion hold a side up until they are over (`DuelCurses`); a keyboard wears out in
  two guesses, a missile flies for fifteen seconds, a shield stands until something comes at it,
  and Sudden Death ends a duel in two minutes (`DuelPowers`).
- **Replication by deltas is exact** (`Replication.World.Step`): after every tick each client's
  view is the brute-force 3x3 neighbourhood with current positions and elo.
- **Missiles depend on time, not on ticks** (`Missiles.MissilesDependOnTime`), like energy does.
- **Stakes are honest** (`Matchmaking.World.Challenge`, `.RespondDuel`, `.EndDuel`): the
  challenged player's elo change in a decided ranked duel lies in the bracket the challenge
  showed, nobody accepting a challenge is ever found busy, and each ranked duel is settled once.
  Every record of a settlement in a reachable world keeps its promise, however the duel ended,
  and both ends of a promise are reached: by giving up, and by the closest solve.
- **Prayers are settled once, and rightly** (`Prayers.SettledOnce`, `Prayers.SettledRightly`).
- **The ranked queue** keeps order and loses no wakeup; the calls that hang are exactly the Loads
  called after its worker has stopped (`RankedQueue.CallsReturn`).
- **Movement** never exceeds its allowance over any window, and an honest client is never
  corrected.

Random numbers are nondeterministic choices: `:|` in methods, and relations that hold for any
roll in specifications. Time is a number that does not go back. Where the code and what one
would expect of it differ:

- Mend re-aims the eyes on the mended row while eyes below it still have their old row numbers,
  so two eyes can end up on one letter (`Counterexamples.MendCollides`). `Boards.MendDistinctExactly`
  gives the exact condition on the eyes before the cast; every other step keeps eyes apart.
- After Mend a side may know more than its guesses show (`Counterexamples.MendForgets`); it knows
  exactly that if and only if the guess taken back showed nothing new (`Boards.MendExactly`). No
  other turn loses that (`DuelHistory.TurnKeepsBoards`), and it is exact again whenever the word
  changes (`DuelSides.DuelSide.Rescore`).
- Divine Intervention's clean slate forgets what was found without changing the word, so letters
  pay again, for more than the word is worth (`Counterexamples.WipePaysAgain`). The bound is the
  word's worth since the slate was wiped, and that once more for every wipe since the word was set.
- A board can show a solve its owner was not given: Reshape Reality offers only words the target
  has not guessed, but they may guess one while its caster is picking
  (`Counterexamples.StaleReshape`); and a new word from the gods falls back on side a's when all
  hundred tried are taken, guessed by side b or not (`Counterexamples.StaleNewWord`). A board
  gets an all green row exactly when its side's word is set to one it has guessed
  (`DuelHistory.TurnKeepsBoards`, `DuelHistory.HistoryKeeps`).
- An expired challenge can be accepted until a tick has swept it (`Matchmaking.AcceptedLate`):
  `Matchmaking.World.RespondDuel` says that being late makes no difference, and that nothing
  pending is late right after a sweep.
- A Load called after the ranked queue's worker has stopped never returns, and a Record made then
  is never saved (`RankedQueue.LoadHangs`). A job runs if and only if the worker had not stopped
  when it was queued (`RankedQueue.JobRunsExactly`).

`dafny verify dfyconfig.toml` checks everything.

## Model

| member | source | states |
|---|---|---|
| `Wordle.ColorsFair` | internal/puzzles/wordle/game.go:39-62 | The closed form keeps every promise of Wordle scoring: green exactly in place, per letter greens plus yellows equal what guess and word share, yellows leftmost, nothing hidden |
| `Wordle.FairIsColors` | internal/puzzles/wordle/game.go:39-62 | A coloring keeps those promises if and only if it is the closed form: there is exactly one fair coloring |
| `Wordle.SolvesExactly` | internal/game/duel.go:327-335 | A scored guess is all green exactly when it is the word |
| `Wordle.ColoredLetterInWord` | internal/puzzles/wordle/game.go:55-60 | A green or yellow letter occurs in the word |
| `Wordle.ColorsFor` | internal/puzzles/wordle/game.go:39-62 | The two counting passes compute a fair coloring, hence the only one |
| `Wordle.PoolColors` | internal/game/abilities_test.go:34-55 | The remaining-letters-pool algorithm computes a fair coloring too, so both scorers agree on all inputs |
| `Wordle.Score` | internal/puzzles/wordle/game.go:15-21 | A guess counts exactly when it is as long as the word and in the dictionary, whatever its case; then its coloring is fair |
| `Wordle.ScoreAny` | internal/puzzles/wordle/game.go:26-36 | Any letters count exactly when there are as many as in the word and all are A-Z once upper case; then the coloring is fair |
| `Wordle.UpperExactly` | internal/puzzles/wordle/game.go:15-29 | Case makes no difference, and only letters of either case become letters |
| `Elo.ExpectedIsChance` | internal/ranked/elo.go:48-51 | The expected score is strictly between 0 and 1, and the two players' add up to 1 |
| `Elo.ExpectedGrows` | internal/ranked/elo.go:48-51 | More elo is a better chance, equal elo an even one, and 400 more make it ten to one |
| `Elo.MultiplierEnds` | internal/ranked/elo.go:66-79 | The closest win multiplies by 1, the clearest, or giving up, by 1.75 |
| `Elo.MultiplierParts` | internal/ranked/elo.go:66-79 | What being out or behind, being far off, and being slow are each worth, in numbers |
| `Elo.PointsInNumbers` | internal/ranked/elo.go:81-96 | A green counts two halves, a yellow one |
| `Elo.RoundNearest` | internal/ranked/elo.go:139-141 | Rounding is to the nearest, halves away from zero |
| `Elo.MultiplierRange` | internal/ranked/elo.go:66-79 | The margin multiplier is in [1, 1.75] |
| `Elo.MultiplierMonotone` | internal/ranked/elo.go:66-79 | A win at least as decisive in every factor never has a smaller multiplier |
| `Elo.ComputeCloseness` | internal/ranked/elo.go:81-96 | The accumulator loop computes greens plus half the yellows over the length, in [0, 1] |
| `Elo.ClosenessRange` | internal/ranked/elo.go:81-96 | Closeness is in [0, 1] and 1 exactly for a solve |
| `Elo.ChangeMonotone` | internal/ranked/elo.go:139-150 | The rounded change grows with the margin in the direction of the surprise and is at least 1 when decisive |
| `Elo.ChangeBounded` | internal/ranked/elo.go:139-150 | No change exceeds 84 either way |
| `Elo.ChangeOpposite` | internal/ranked/elo.go:139-150 | With equal K one side's change is the other's negated, through rounding and the minimum of 1 |
| `Elo.SettleSound` | internal/ranked/elo.go:117-169 | Settling keeps both records sound (elo at least 0, peak at least elo, games equal wins plus losses plus draws), counts one game each, and moves nobody by more than 84 |
| `Elo.SettleZeroSum` | internal/ranked/elo.go:117-137 | With equal K the changes sum to 0, unless a side hits the floor: then, and only then, the sum is positive |
| `Elo.SettleMoves` | internal/ranked/elo.go:139-150 | A decided duel wins at least 1; the loser loses at least 1 unless already at 0 |
| `Elo.StakesAttained` | internal/ranked/elo.go:117-180 | Both ends of the stakes are reached, for both players: the near ones by the closest win, the far ones by the clearest |
| `Elo.SettleCounts` | internal/ranked/elo.go:152-169 | One game for each, in the right column, and the peak is the best elo so far |
| `Elo.ProvisionalMovesMore` | internal/ranked/elo.go:41-46 | In its first ten games the same result moves a character further, half again as far but for rounding |
| `Elo.SettleWithinStakes` | internal/ranked/elo.go:171-180 | Whatever the margin, each player's change is inside the stakes either would be shown |
| `Boards.FakesNeverHideASolve` | internal/game/duel.go:284-323 | On a consistent row the real, the seen and the shown colors are each all green exactly when the guess is the word |
| `Boards.LearnedMember` | internal/game/abilities.go:124-153 | After both passes a letter is found exactly when it was, or a new green or any yellow shows it |
| `Boards.LearnKeepsKnowledge` | internal/game/abilities.go:124-143 | Learning a guess forgets nothing, covers that guess, and stays truthful about the word |
| `Boards.GainFromPotential` | internal/game/abilities.go:124-143 | What a learned guess pays is at most the drop in 2 per position not green yet plus 1 per letter of the word not found yet |
| `Boards.PotentialAtMost` | internal/game/abilities.go:124-143 | All a word can ever pay is 2 per position plus 1 per distinct letter |
| `Boards.GainInNumbers` | internal/game/abilities.go:122-143 | A guess pays two for every position that turns green and one for every letter found that those did not already show |
| `Boards.AimingKeepsEyes` | internal/game/abilities.go:444-487 | Aiming the eyes that must move, one after the other, leaves every eye that is on on a letter it may see, and eyes that were on different letters on different letters |
| `Boards.MendVisible` | internal/game/cleric.go:51-63 | Mending a row commutes with looking: the visible board afterwards is the visible board before without the row |
| `Boards.MendFollows` | internal/game/cleric.go:51-63 | A tile off the mended row keeps its letter, its color and whether it is visible, at its new place |
| `Boards.MendKeepsDestroyed` | internal/game/cleric.go:51-63 | Destroyed tiles stay on the board |
| `Boards.MendKeepsEyes` | internal/game/cleric.go:65-80 | After Mend every eye that is on watches a visible letter, and an eye off the mended row watches the letter it did |
| `Boards.MendKeepsDistinct` | internal/game/cleric.go:65-80 | Unless some pair may collide, Mend keeps eyes on different letters for any dice |
| `Boards.MendCollision` | internal/game/cleric.go:65-80 | When a pair may collide, there is a roll of the dice that puts two eyes on one letter |
| `Boards.MendDistinctExactly` | internal/game/cleric.go:65-80 | Mend keeps eyes apart for all dice if and only if no pair of eyes may collide, a condition on the eyes before the cast |
| `Boards.ShownGreenSplits` | internal/game/cleric.go:51-53 | What the guesses show green is what the others and the row do |
| `Boards.ShownLetterSplits` | internal/game/cleric.go:51-53 | What letters the guesses show is what the others and the row do |
| `Boards.MaxClosenessSplits` | internal/game/cleric.go:51-53 | The best closeness is the better of the others' and the row's |
| `Boards.MendExactly` | internal/game/cleric.go:49-63 | After Mend, greens, found letters and best are still exactly what the guesses show if and only if the guess taken back showed nothing new: no green, no letter and nothing closer than the other guesses |
| `Counterexamples.MendForgets` | internal/game/cleric.go:49-63 | With GRATE the only guess at CRATE, mending it leaves more known than the empty board shows |
| `Counterexamples.MendCollides` | internal/game/cleric.go:65-80 | On a consistent five-letter board with two GRATEs, a Mend by the rules puts two eyes on one letter |
| `Counterexamples.WipePaysAgain` | internal/game/cleric.go:187-197 | GRATE, a clean slate and GRATE again pay more than CRATE is worth |
| `Counterexamples.StaleNewWord` | internal/game/cleric.go:235-254 | a is after GRATE, b has guessed it on the way to CRATE and begs the gods; the word they fall back on is GRATE: b's board shows a solve while b is still playing |
| `Counterexamples.StaleReshape` | internal/game/abilities.go:519-555 | GRATE is offered by the rules, guessed, then picked: the duel stays consistent and b's board shows a solve of b's own word while b is still playing |
| `DuelSides.StruckOnce` | internal/game/abilities.go:432-442 | One more missile is one more step of the closed form: the shield stops the first, then 5 energy and a row unless it is the last unused one |
| `DuelSides.SwapKeepsPermutation` | internal/game/rogue.go:57-67 | Swapping two keys keeps the keyboard a permutation of A-Z |
| `DuelSides.DuelSide.Stun` | internal/game/abilities.go:110-114 | A stun lasts until the later of the two times; nothing else changes |
| `DuelSides.DuelSide.LoseEnergy` | internal/game/abilities.go:116-120 | Takes as much as there is, and says how much |
| `DuelSides.DuelSide.MarkFound` | internal/game/abilities.go:145-153 | A letter A-Z is new exactly the first time |
| `DuelSides.DuelSide.LearnGreens` | internal/game/abilities.go:125-133 | The green pass: greens, their letters and 2 energy for each new one, in closed form |
| `DuelSides.DuelSide.LearnYellows` | internal/game/abilities.go:134-138 | The yellow pass: letters and 1 energy for each new one, in closed form |
| `DuelSides.AccountCredits` | internal/game/abilities.go:122-143 | Paying a guess's gain keeps the account in order: paid so far plus what letters can still pay is at most the word's worth |
| `DuelSides.AccountWipes` | internal/game/cleric.go:187-197 | So does a wiped slate, for one more word's worth over all |
| `DuelSides.AccountBounds` | internal/game/abilities.go:122-143 | With the account in order, paid since the word was set or the slate wiped is at most the word's worth, and paid since the word was set at most that times one more than the wipes |
| `DuelSides.DuelSide.Learn` | internal/game/abilities.go:122-143 | Both passes; pays and books exactly the gain when pay is set, reports exactly whether a green is new, and keeps the account in order |
| `DuelSides.DuelSide.Relearn` | internal/game/abilities.go:155-165 | From scratch: afterwards greens, found letters and best are exactly what the recorded guesses show, and nothing was paid |
| `DuelSides.DuelSide.Rescore` | internal/game/abilities.go:546-555 | Every guess gets its real colors against the new word, fakes gone; greens, found and best are exactly what the guesses show |
| `DuelSides.DuelSide.SwapKeys` | internal/game/rogue.go:57-67 | Two different keys swap, on top of any scramble; still a permutation, for two guesses |
| `DuelSides.DuelSide.Scramble` | internal/game/rogue.go:37-55 | A keyboard that is a permutation of A-Z, for two guesses |
| `DuelSides.ExactStep` | internal/game/abilities.go:157-165 | Learning one more guess keeps the closed form exact |
| `DuelRules.ReshapeShowsSolve` | internal/game/abilities.go:500-555 | After a reshape the target's board has an all green row exactly when they had guessed the word the caster picked |
| `DuelRules.PayIsEnergy` | internal/game/abilities.go:124-143 | A played guess that does not end the duel leaves the guesser exactly its letter pay richer |
| `DuelRules.TwoTicks` | internal/game/abilities.go:632-638 | Catching up at t and then at u is catching up at u |
| `DuelRules.TicksDependOnTime` | internal/game/abilities.go:632-638 | Every schedule of ticks that ends at the same time leaves the same time energy and the same clock |
| `Missiles.FlyingExactly` | internal/game/abilities.go:649-657 | A missile not due flies on as often as it was there; one due is gone |
| `Missiles.NoneLost` | internal/game/abilities.go:649-657 | Every missile lands or flies on |
| `Missiles.LandedTwice` | internal/game/abilities.go:647-658 | Landing what is due at t and then at u is landing what is due at u |
| `Missiles.MissilesDependOnTime` | internal/game/abilities.go:647-658 | Every schedule of ticks that ends at the same time lands the same missiles to the same effect and leaves the same ones flying |
| `Missiles.MissileHarm` | internal/game/abilities.go:432-442 | Of the missiles that land a shield stops one; each other takes five energy, as far as there is any, and a row, as far as one unused is left |
| `DuelSafety.SlashKeeps` | internal/game/abilities.go:384-389 | Slash keeps the duel consistent: eyes move off the destroyed letter |
| `DuelSafety.SeeingEyeKeeps` | internal/game/abilities.go:408-414 | A new eye watches a letter it may see that no other eye watches |
| `DuelSafety.MendKeeps` | internal/game/cleric.go:49-85 | Mend keeps the duel consistent, takes nobody's last row, and keeps eyes apart unless a pair may collide |
| `DuelSafety.ExactIsKnowledge` | internal/game/abilities.go:155-165 | Knowledge that is exactly what the guesses show is truthful and covers them |
| `DuelSafety.ReshapeKeeps` | internal/game/abilities.go:534-542 | A reshape keeps the duel consistent, eyes included |
| `DuelSafety.NewWordKeeps` | internal/game/cleric.go:198-211 | A new word for both sides keeps the duel consistent, both sides' eyes included |
| `DuelSafety.FateKeeps` | internal/game/cleric.go:176-233 | Every fate keeps the duel consistent and leaves nobody out who was not |
| `DuelSafety.PlainCastKeeps` | internal/game/abilities.go:381-430 | The abilities that only change shields, rows, clocks and energy keep the duel consistent; Cripple leaves an unused row |
| `DuelSafety.PurifyKeeps` | internal/game/cleric.go:87-103 | Purify keeps the duel consistent, the opponent losing their eyes |
| `DuelSafety.CastKeepsDuel` | internal/game/abilities.go:337-430 | Every ability cast by the rules keeps the duel consistent, makes nobody run out of rows, and keeps eyes apart unless it is a Mend with a pair that may collide |
| `DuelSafety.RecordedRowOk` | internal/game/duel.go:282-302 | A recorded guess has its true colors, and real, seen and shown colors each show a solve exactly when it is the word |
| `DuelSafety.PaidKeepsSide` | internal/game/abilities.go:255-264 | The guesser's side stays consistent through recording, learning and paying |
| `DuelSafety.ProvokedKeeps` | internal/game/abilities.go:266-292 | Every passive keeps the opponent's side consistent and touches neither board nor eyes |
| `DuelSafety.GuessKeepsDuel` | internal/game/duel.go:275-323 | A guess that does not end the duel keeps it consistent, eyes included, and leaves the opponent's rows alone |
| `DuelSafety.TickKeepsDuel` | internal/game/abilities.go:629-673 | A tick keeps the duel consistent and takes nobody's last row |
| `Duels.Duel.constructor` | internal/game/duel.go:197-214 | A duel starts with both sides on the same word, empty boards and full rows, and is consistent |
| `Duels.Duel.EyeOptions` | internal/game/abilities.go:447-458 | Exactly the tiles that exist, are not green, not destroyed and not watched by another eye |
| `Duels.Duel.Aim` | internal/game/abilities.go:444-463 | The eye is on exactly when there is such a tile, and then on one of them |
| `Duels.Duel.AimEyes` | internal/game/abilities.go:475-487 | Never indexes out of range; exactly the eyes that must move do, in order, for each of the four reasons, and what the eyes then see can be told |
| `Duels.Duel.SeenByEyes` | internal/game/abilities.go:489-498 | Called wherever eyes moved: never indexes out of range; every eye that is on shows its letter, and no green or destroyed letter is ever shown |
| `Duels.Duel.Hostile` | internal/game/abilities.go:243-249 | Hits exactly when there is no shield, and uses a shield up |
| `Duels.Duel.Provoke` | internal/game/abilities.go:266-292 | The guesser's passive, blocked by a shield that is used up |
| `Duels.Duel.TakePay` | internal/game/abilities.go:255-264 | Letters, their pay, the account and beaten missiles |
| `Duels.Duel.RewardGuess` | internal/game/abilities.go:252-302 | The whole effect of a guess that did not end the duel: pay, beaten missiles, the passive, the wizard's eyes, the opponent's idle eyes |
| `Duels.Duel.Record` | internal/game/duel.go:282-303 | The whole new side: the row with its fakes, best, solved, and the tricks used up |
| `Duels.Duel.DuelGuess` | internal/game/duel.go:256-325 | When a guess is ignored, blocked, invalid or played, exactly; the duel ends as solved exactly when it is the word, and as a draw exactly when neither side can guess any more; otherwise both sides are as the rules say, the pay is booked to the guesser and to nobody else, and the duel stays consistent |
| `Duels.Duel.CastKnight` | internal/game/abilities.go:384-403 | Slash, Shields Up, Determination, Pommel Strike and Cripple do what their rules say to both sides |
| `Duels.Duel.CastWizard` | internal/game/abilities.go:404-424 | Scry tells whether the letter is in the word; Seeing Eye, Magic Missile and Illusion do what their rules say |
| `Duels.Duel.CastRogue` | internal/game/rogue.go:12-46 | Pickpocket tells the letter unless shielded; Cheat, Feint, Under Their Nose and Confuse do what their rules say |
| `Duels.Duel.MendRow` | internal/game/cleric.go:49-80 | The guess is gone, destroyed letters and eyes follow theirs up, eyes on the row look elsewhere |
| `Duels.Duel.CastCleric` | internal/game/cleric.go:32-46 | Prayers, Mend and Purify do what their rules say |
| `Duels.Duel.Cleanse` | internal/game/cleric.go:87-103 | Every curse on the caster gone, and the opponent's eyes |
| `Duels.Duel.DivineWord` | internal/game/cleric.go:235-254 | The first word tried that is neither's and nobody guessed; side a's own exactly when all hundred tried are taken |
| `Duels.Duel.Intervene` | internal/game/cleric.go:174-233 | Each fate's whole effect on both sides, the accounts, the deadline and the energy clock; a Revelation shows both a column neither had found as long as there is one |
| `Duels.Duel.PrayerLetter` | internal/game/cleric.go:161-173 | A position not found yet, as long as there is one |
| `Duels.Duel.ReshapeWords` | internal/game/abilities.go:500-515 | At most five different words, none the target's nor any they guessed |
| `Duels.Duel.CastAbility` | internal/game/abilities.go:304-334 | Refused exactly when slot, silence, energy or the ability's rule says so, changing nothing; otherwise paid for once and with exactly its effect; the duel stays consistent |
| `Duels.Duel.ReshapeReality` | internal/game/abilities.go:517-544 | Accepted exactly for a wizard's offered word that can be paid for; then paid once, and the target rescored unless shielded |
| `Duels.Duel.IllusionGuess` | internal/game/abilities.go:567-617 | A try counts exactly when trapped, not stunned and valid; the right word frees, the sixth wrong one frees and costs up to 5 energy |
| `Duels.Duel.LandMissiles` | internal/game/abilities.go:652-664 | The loop over due missiles gives the closed form: each lands once, the others fly on |
| `Duels.Duel.CatchUp` | internal/game/abilities.go:632-638 | The catch-up loop ends, and both sides gain exactly one energy per interval due |
| `Duels.Duel.Tick` | internal/game/abilities.go:619-674 | A duel past its deadline ends as a draw and no other does; the rest get what is due, and stay consistent |
| `Duels.Duel.GiveUp` | internal/game/duel.go:351-360 | Forfeiting or disconnecting makes the other side win |
| `Duels.Duel.Unanswered` | internal/game/cleric.go:155-159 | A refund reaches only a duel still being played |
| `DuelTurns.LettersPayEnergy` | internal/game/abilities.go:255-264 | In a turn by the rules, what is booked as letter pay is exactly the energy the guesser gained |
| `DuelTurns.BooksAddUp` | internal/game/abilities.go:255-264 | Booking turn by turn gives what was paid since the last reset, since the word was set, and the wipes since then |
| `DuelHistory.RescoredBoard` | internal/game/abilities.go:546-555 | A rescored board is known exactly, and shows a solve exactly when the word had been guessed |
| `DuelHistory.GuessedBoard` | internal/game/duel.go:275-323 | A guess that is not the word keeps exact knowledge exact and shows no new solve |
| `DuelHistory.CastBoards` | internal/game/abilities.go:381-430 | Of the abilities only Mend and Divine Intervention change a board or what is known of it |
| `DuelHistory.MendedBoard` | internal/game/cleric.go:49-63 | A mended board is still known exactly if and only if the row showed nothing new, and shows no new solve |
| `DuelHistory.TurnKeepsBoards` | internal/game/world.go:138-152 | A turn by the rules keeps exact knowledge exact if and only if it is no Mend that forgets, and puts an all green row on a board without one if and only if it sets that side's word to one it has guessed |
| `DuelHistory.HistoryKeeps` | internal/game/world.go:138-152 | Over any history of a duel still going on: a side runs out of rows only by its own guess, its eyes meet only by a Mend that may let them, its knowledge stops being exact only by a Mend that forgets, and its board shows a solve only once its word was set to one it had guessed |
| `DuelFrames.TurnFrame` | internal/game/abilities.go:304-674 | What a turn can change of a side's tricks, curses, shield and rows, and by which kinds of turn; stuns and silences are only made longer until over or purified |
| `DuelLasting.HistoryRuns` | internal/game/world.go:138-152 | Every history whose commands came in the order of time is a run of turns by the rules |
| `DuelLasting.FeintFools` | internal/game/duel.go:284-297 | s's next guess after its Feint shows the opponent exactly the colors picked, unless it is the word or a slate was wiped; s itself sees the truth unless Under Their Nose is pending |
| `DuelLasting.NoseFools` | internal/game/duel.go:284-297 | s's next guess after an Under Their Nose that hit s shows s exactly the colors picked, unless it is the word, s purified itself or a slate was wiped; the opponent sees the truth unless a Feint is pending |
| `DuelCurses.FakesAreOver` | internal/game/duel.go:284-297 | With no new trick since s's last guess both players are shown the truth |
| `DuelCurses.PassiveGoesOff` | internal/game/abilities.go:266-292 | A guess that finds a green its guesser did not have sets its passive off at the opponent |
| `DuelCurses.NoGreenNoPassive` | internal/game/abilities.go:266-302 | Any other guess does nothing to the opponent but let idle eyes look |
| `DuelCurses.PassiveStopped` | internal/game/abilities.go:266-292 | A shield turns a passive away and is used up |
| `DuelCurses.SilencedCastsNothing` | internal/game/abilities.go:315-321 | A silenced side is refused every cast |
| `DuelCurses.DivineWillSilences` | internal/game/abilities.go:286-291 | From a Cleric's guess that finds a green and hits an unshielded opponent, that opponent is refused every cast for ten seconds, unless a slate is wiped |
| `DuelCurses.StunLasts` | internal/game/abilities.go:396-399 | From a Pommel Strike for ten seconds, from a Knight's green for five, the side hit can neither guess nor try its illusion, unless it purifies itself or a slate is wiped |
| `DuelCurses.StunWearsOff` | internal/game/abilities.go:104-114 | And no longer: after that it is not held up by a stun, if nothing stunned it again |
| `DuelCurses.TryCounts` | internal/game/abilities.go:567-617 | When a try at the illusion counts, and what it does: the word frees, the sixth try frees at the cost of up to five energy, any other counts |
| `DuelCurses.IllusionTraps` | internal/game/abilities.go:567-617 | From an Illusion that hits until the word or the sixth try the side can only try, and each try that counted is on record |
| `DuelCurses.CountsAs` | internal/game/duel.go:274-283 | With Cheat any letters count, without it words in the dictionary, as long as the word |
| `DuelCurses.CheatAllows` | internal/game/duel.go:274-283 | Cheat is good for the next played guess, word or not |
| `DuelCurses.CheatIsOver` | internal/game/duel.go:274-283 | And for that one only |
| `DuelCurses.Purified` | internal/game/cleric.go:87-103 | After Purify nothing holds the caster up, fakes what it sees, flies at it or watches it; board and rows stay |
| `DuelCurses.SlateWiped` | internal/game/cleric.go:187-198 | A clean slate leaves nothing of either side's guesses, energy, tricks and curses, and starts both clocks over |
| `DuelPowers.KeysSet` | internal/game/rogue.go:37-67 | A scrambled keyboard is one of the 26 letters; a Rogue's passive turns two keys of the one there was |
| `DuelPowers.TwoKeysTurned` | internal/game/rogue.go:57-67 | Exactly two letters are in each other's place |
| `DuelPowers.KeysLast` | internal/game/duel.go:298-303 | A scrambled keyboard lasts for exactly two played guesses, unless purified, wiped or scrambled again |
| `DuelPowers.MissileFlies` | internal/game/abilities.go:415-418 | A Magic Missile flies for fifteen seconds whatever else happens, unless its target plays a guess or purifies itself or a slate is wiped; the first tick then lands it |
| `DuelPowers.TickHarm` | internal/game/abilities.go:629-658 | What a tick does to a side: one energy for every thirty seconds gone by, and the harm of exactly the missiles due |
| `DuelPowers.ShieldStops` | internal/game/abilities.go:243-249 | A shield turns away whatever an ability would have done, and the caster pays all the same |
| `DuelPowers.ShieldStands` | internal/game/abilities.go:390-392 | Raised, a shield stands until something it stops comes at it or a slate is wiped |
| `DuelPowers.DeadlineMoves` | internal/game/cleric.go:212-215 | Only Sudden Death and a clean slate move the deadline |
| `DuelPowers.SuddenDeathEnds` | internal/game/abilities.go:623-628 | The first tick two minutes after Sudden Death makes a duel still on a draw, unless a slate was wiped |
| `DuelPowers.WhoWins` | internal/game/duel.go:256-360 | A duel is won by guessing the word or because the other side gave up, drawn when both are out or time is up, and ends in no other way |
| `DuelPowers.PriceList` | internal/classes/classes.go:90-159 | What each slot costs, class by class |
| `DuelPowers.Loadouts` | internal/classes/classes.go:90-188 | Who can do what, slot by slot, and nothing in any other slot |
| `DuelPowers.CastPays` | internal/game/abilities.go:325-331 | A used cast costs its caster its price and the other side nothing; a prayer nobody hears costs nothing |
| `DuelPowers.FatesShared` | internal/game/cleric.go:231-232 | Fortune swaps what is left after paying; under a new word both sides have the same |
| `DuelPowers.PickPays` | internal/game/abilities.go:517-544 | A pick costs a wizard twelve, hit or not; a hit sets the word |
| `DuelPowers.OffersAreNew` | internal/game/abilities.go:500-515 | At most five different words, none the target's or guessed by it, and nothing paid yet |
| `DuelPowers.WordUnmasks` | internal/game/abilities.go:546-555 | A new word shows both players every guess's real colors against it |
| `DuelPowers.RowsMove` | internal/game/abilities.go:393-403 | Determination is worth a row, also to somebody who was out; Cripple takes one and leaves one unused |
| `DuelPowers.SlashHides` | internal/game/abilities.go:168-179 | Slash hides one letter that could be seen, and nothing else changes on the visible board |
| `DuelPowers.RefusedExactly` | internal/game/abilities.go:336-378 | With voice and energy, a cast is refused exactly when it could not do what it is for |
| `DuelPowers.EnergyClockMoves` | internal/game/abilities.go:632-638 | Only ticks move the energy clock, and a clean slate starts it over |
| `DuelPowers.RefundPays` | internal/game/cleric.go:155-159 | A refund is the whole cost, to a duel still on, and nobody else gets any |
| `DuelPowers.TickMovesEyes` | internal/game/abilities.go:659-668 | A tick moves exactly the eyes whose thirty seconds are up, for thirty more |
| `DuelPowers.WiseMovesEyes` | internal/game/abilities.go:272-281 | A Wizard's guess that finds a green moves all its eyes |
| `DuelPowers.EyeAdded` | internal/game/abilities.go:408-414 | Each Seeing Eye past a shield is one more eye, on a letter nobody else watches if there is one |
| `DuelPowers.IdleEyesLook` | internal/game/abilities.go:294-302 | After a guess no eye idles while there is a letter to see that no other eye watches |
| `Duels.Duel.Step` | internal/game/world.go:138-152 | Any command, for any side, is answered by the rules and has exactly the effect they give it on both sides, the clocks and the ending, keeps the duel consistent and the promises to both sides, and books exactly what the turn says |
| `Duels.Duel.Play` | internal/game/world.go:138-152 | Over any sequence of commands: every turn is answered and carried out by the rules, the duel stays consistent, the promises to both sides are kept; what letters paid since the word was set or the slate wiped, summed over the turns, is at most the word's worth, and since the word was set at most that times one more than the wipes |
| `Matchmaking.World.Challenge` | internal/game/duel.go:119-174 | Which answer a challenge gets, exactly; a new one replaces the challenger's own pending one and shows the stakes both ratings mean at that moment; stakes shown are never rewritten |
| `Matchmaking.World.ReplaceOwn` | internal/game/duel.go:143-153 | Drops the challenger's other pending challenge, or finds that this one is pending already |
| `Matchmaking.World.CancelChallenges` | internal/game/duel.go:228-241 | Exactly the challenges to or from the player are gone |
| `Matchmaking.World.ExpireChallenges` | internal/game/duel.go:243-254 | Exactly the challenges whose time came are gone |
| `Matchmaking.World.RespondDuel` | internal/game/duel.go:175-195 | Only the target can answer; accepting always starts the duel on the challenge's terms, late or not, nobody is ever found busy; an answer can be late only while no sweep came since the challenge expired |
| `Matchmaking.AcceptedLate` | internal/game/duel.go:175-195 | A run in which a challenge is accepted the moment it has expired |
| `Matchmaking.World.StartDuel` | internal/game/duel.go:197-226 | Both players point at the one new duel, and no challenge names either |
| `Matchmaking.World.SettleRanked` | internal/game/duel.go:385-436 | Both ratings become what Settle says, once handed off, with the margin both sides' boards make; the challenged player's change is inside their stakes, at the far end for giving up and at the near end for the closest solve |
| `Matchmaking.World.EndDuel` | internal/game/duel.go:362-383 | The duel is gone for both; a ranked one is settled and handed off once; a decided one moves the challenged player inside what the challenge promised, to the far end when somebody gave up and to the near end for the closest solve; an unranked one changes no rating |
| `Matchmaking.MarginEnds` | internal/game/duel.go:392-406 | Giving up and the clearest solve make the clearest margin, the closest solve the closest |
| `Matchmaking.StandsThirtySeconds` | internal/game/duel.go:243-254 | A challenge stands through every sweep of thirty seconds and none after |
| `Matchmaking.World.Apart` | internal/game/duel.go:77-89 | The players of a live duel are in no other duel and no challenge, and the duel's promise still matches both ratings |
| `Matchmaking.SavedAtEnd` | internal/game/duel.go:385-436 | Ending a duel keeps the record of settlements: each ranked duel that is over exactly once, no other, and every decided one inside what its challenge promised |
| `Matchmaking.World.ForfeitDuel` | internal/game/duel.go:351-360 | The other player wins by the largest margin, and a ranked duel is settled and handed off so, both ratings included |
| `Matchmaking.World.LeaveDuels` | internal/game/duel.go:438-445 | A leaving player loses their duel by the largest margin, settled and handed off with both ratings, and no challenge names them |
| `Matchmaking.World.Leave` | internal/game/world.go:275-287 | A leaving player loses a running duel, settled and handed off with both ratings, their challenges are gone, and the matchmaking invariant holds for everybody else |
| `Matchmaking.World.Join` | internal/game/world.go:237-250 | A new player is in no duel and no challenge |
| `Prayers.StepInv` | internal/game/cleric.go:105-153 | Every event keeps slots, queued answers and energy accounts in order |
| `Prayers.RunInv` | internal/game/cleric.go:105-153 | So does every run; energy is what was granted less what was spent on prayers not refunded, never negative; a queued answer can always be carried out |
| `Prayers.FewAsk` | internal/game/cleric.go:18-20 | At most four prayers wait on the oracle, in every state of every run |
| `Prayers.StepPrayer` | internal/game/cleric.go:129-153 | A settled prayer never changes; a pending one is settled only by its own command |
| `Prayers.SettledOnce` | internal/game/cleric.go:129-153 | No prayer is answered, refunded or dropped twice |
| `Prayers.SettledSometime` | internal/game/cleric.go:105-153 | A settled prayer was settled at some step of its run |
| `Prayers.SettledRightly` | internal/game/cleric.go:133-150 | A prayer is dropped exactly when its duel is over, answered exactly when the oracle answered and the word is still the one prayed about, refunded otherwise: exactly its cost, to its own live side, nobody else's energy moving |
| `Prayers.QuietSettled` | internal/game/cleric.go:105-153 | Once the oracle has spoken and every command ran, every prayer is settled and every slot can be given back |
| `Prayers.HeardExactly` | internal/game/cleric.go:105-127 | A prayer is refunded on the spot if and only if there is no oracle or four slots are held; otherwise it is asked, a slot is held for it, and its side is the poorer by exactly two or six |
| `Prayers.HeldUntilGivenBack` | internal/game/cleric.go:128-129 | A slot is held until its goroutine gives it back, which it can once it has posted |
| `RankedQueue.StepInv` | internal/ranked/service.go:45-95 | Every event keeps order, answers and wakefulness |
| `RankedQueue.StepAwake` | internal/ranked/service.go:45-73 | No lost wakeup: a parked worker with work or a close to see has a token waiting or a sender on its way |
| `RankedQueue.StepInOrder` | internal/ranked/service.go:45-73 | Jobs run once, in the order they were queued |
| `RankedQueue.RunInv` | internal/ranked/service.go:45-95 | The invariant holds in every state of every run |
| `RankedQueue.LastRecordWins` | internal/ranked/service.go:120-146 | The store holds the last rating recorded successfully |
| `RankedQueue.LoadSeesRecords` | internal/ranked/service.go:105-118 | When a Load returns, its answer includes every Record made before it was called |
| `RankedQueue.FirstLoad` | internal/ranked/service.go:105-118 | With nothing saved before, a Load gets what the store started with; a newcomer, or a failed read, starts from 1000 |
| `RankedQueue.CloseFlushes` | internal/ranked/service.go:85-95 | When Close returns, everything queued before the first Close was called has run |
| `RankedQueue.QuietState` | internal/ranked/service.go:45-95 | When nothing more can happen the worker is parked with nothing to do and no call outstanding, or it stopped |
| `RankedQueue.JobRunsExactly` | internal/ranked/service.go:45-73 | In every run, once the worker has stopped, a job has run if and only if the worker had not stopped when it was queued |
| `RankedQueue.LateIsOrphaned` | internal/ranked/service.go:105-118 | A Load called after the worker stopped waits for a job that will not run |
| `RankedQueue.OrphanStays` | internal/ranked/service.go:45-83 | And so it waits forever, whatever else is called |
| `RankedQueue.LoadHangs` | internal/ranked/service.go:45-118 | A run in which a Load hangs |
| `RankedQueue.CallsReturn` | internal/ranked/service.go:65-95 | With no new calls only boundedly many events follow, and when nothing more can happen the callers still waiting are exactly those that called a Load after the worker had stopped |
| `Ranges.InSomeOrder` | internal/game/grid.go:59-68 | Ranging over a map visits every key once |
| `Grids.FloorDivFloors` | internal/game/grid.go:16-22 | Through Go's truncating division, a coordinate of either sign is in exactly the cell that spans it |
| `Grids.Reach` | internal/game/grid.go:59-69 | Near cells hold everything within 1024 on both axes and nothing 2048 or more away on either |
| `Grids.Grid.Insert` | internal/game/grid.go:33-41 | The entity is filed once, where it is; nothing else moves; no empty cell is kept |
| `Grids.Grid.Remove` | internal/game/grid.go:43-49 | The entity is gone from the index, and its cell if it was the last |
| `Grids.Grid.Moved` | internal/game/grid.go:51-57 | After a change of position everything is filed where it is again |
| `Grids.Grid.NearTo` | internal/game/grid.go:59-69 | Visits exactly the brute-force neighbours, each once |
| `WorldUpdates.Client.ApplyWorldUpdate` | client/src/game.ts:330-351 | The four loops apply an update as the fold over its four lists, and the view stays what the updates since the welcome add up to |
| `WorldUpdates.AppliedIsSight` | client/src/game.ts:330-351 | Applied to a view that is wrong only about flagged entities, an update with spawns for the unknown, moves and elos for the flagged and despawns for the unseen makes the view exactly what is in sight |
| `Replication.DeltaIsExact` | internal/game/replication.go:13-41 | What replicate sends, from the known map and the flags, makes the view the brute-force 3x3 neighbourhood |
| `Replication.ExactInSync` | internal/game/replication.go:55-62 | Afterwards the known map matches the view and nothing flagged is outstanding |
| `Replication.ViewReaches` | internal/game/grid.go:59-69 | Everything else within 1024 pixels on both axes is in view as it is; nothing 2048 or more away is, nor the player itself |
| `Replication.World.NewEntity` | internal/game/world.go:195-201 | A new id, filed in the grid, nothing else changed |
| `Replication.World.RemoveEntity` | internal/game/world.go:203-206 | Gone from the world and the grid, nothing else changed |
| `Replication.World.MoveEntity` | internal/game/world.go:218-225 | Position, grid and the moved flag, nothing else |
| `Replication.World.RateEntity` | internal/game/world.go:208-216 | Elo and its flag, nothing else |
| `Replication.World.Join` | internal/game/world.go:239-273 | The newcomer starts with an empty view; everybody stays in sync |
| `Replication.World.Leave` | internal/game/world.go:276-287 | The player is gone; everybody else stays in sync |
| `Replication.World.Move` | internal/game/movement.go:57-58 | An accepted move keeps everybody in sync |
| `Replication.World.SetRating` | internal/game/world.go:208-216 | A rating change keeps everybody in sync |
| `Replication.World.LookAround` | internal/game/replication.go:17-33 | The scan notes exactly what an update for the entities in sight needs, and stamps them |
| `Replication.World.Forget` | internal/game/replication.go:35-41 | Exactly the known entities not stamped this tick are despawned and forgotten |
| `Replication.World.ReplicateTo` | internal/game/replication.go:14-53 | One client's view becomes exact, whether or not anything had to be sent |
| `Replication.World.Replicate` | internal/game/replication.go:13-62 | Every client's view becomes exact, and the flags start over |
| `Replication.World.Step` | internal/game/world.go:185-193 | After every tick each client sees exactly the other entities in the 3x3 cells around its player, each with its current position and elo: that is what the updates sent since its welcome add up to |
| `Movement.Player.Spend` | internal/game/movement.go:32-41 | Accepts exactly what the refilled allowance covers, and takes it off |
| `Movement.Player.Move` | internal/game/movement.go:45-60 | Corrected exactly when out of bounds or over the allowance, and then nothing moves |
| `Movement.RunValid` | internal/game/movement.go:20-60 | Over any run the allowance stays in [0, 562.5] and positions stay on the map |
| `Movement.TravelPaid` | internal/game/movement.go:20-41 | What a run covers plus what is left is paid for by the clock |
| `Movement.SpeedLimit` | internal/game/movement.go:10-60 | Over any window of any run, accepted moves cover at most 562.5 * (1 + t1 - t0) |
| `Movement.HonestNeverCorrected` | internal/game/movement.go:10-41 | A client moving at most 450 px/s that is never silent for more than 1.25 s is never corrected |
| `Dailies.OneMoreGuess` | internal/puzzles/wordle/game.go:121-155 | A scored guess extends a game as it should look |
| `Dailies.Sessions.Start` | internal/puzzles/wordle/game.go:101-117 | Starting again on the same day changes nothing and gives the guesses back; a new day starts a new game |
| `Dailies.Sessions.Guess` | internal/puzzles/wordle/game.go:119-155 | A guess counts exactly when the game is on and the word is one; at most five, none after the word; the game is reported exactly when this guess ends it, and never twice for a player and day |

## Left out

- Messages to clients: only what a guess shows each player, what eyes see, what Scry and Pickpocket tell, world updates and the stakes of a challenge are kept; encoding, sockets, the router and rate limits are not part of this model.
- The world's command channel, panics and real scheduling: each command, tick or critical section is one atomic step.
- A send to a client that fails: every world update sent is taken to arrive, in order.
- HTTP, accounts, SQLite and configuration: the rating store is an abstract map, its failures a flag per job.
- The oracle's texts: an answer is success or failure, at any later step.
- Floating point: reals stand for floats and the power of ten is any function with the law it needs; elo gaps large enough to saturate floats are outside the model. Hypot is any metric.
- 32-bit coordinates and ids wrapping around: coordinates stay on a bounded map, ids are taken never to run out.
- Upper-casing of letters outside ASCII.
- Once-only abilities: no class has one, so the set of used abilities is not kept.
- Duels switched off (no puzzle): the puzzle is always there, with words of one fixed length of A-Z.
- Who is in view of a challenger is a parameter of `Matchmaking.World.Challenge`; it comes from the known map of replication.dfy.
- One duel's inside and the lobby are separate models: in lobby.dfy a duel ends with any winner, any two sides and after any time, which covers every way duel.dfy can end one.
- One world object: `Replication.World`, `Matchmaking.World`, `Movement.Player` and `Duels.Duel` each hold the fields of the source's world and players that their part reads and writes; no property here needs two of them at once.
- Interpolation of other players' positions on the client: the view keeps the last sample.
- The day's word, and whether a result was saved already: parameters of `Dailies.Sessions`, whose session map lives as long as the server.
- Duel typing counts, presence, player cards, sprites, word lists and the rest of the client are not modelled.
- DuelSides.DuelSide.Scramble: says the keyboard is some permutation, not that each one is as likely.
