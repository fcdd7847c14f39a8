/** Keyboards, missiles, shields, deadlines, prices and eyes, over turns and histories, in
numbers: what the abilities come to. */
module DuelPowers {
  import opened Wordle
  import opened Boards
  import opened DuelSides
  import opened DuelRules
  import opened DuelTurns
  import opened DuelFrames
  import opened DuelLasting
  import opened DuelCurses
  import DuelSafety
  import Missiles
  import Elo

  // ----- Keyboards

  /** Guesses s played in the turns after i and before j. */
  function GuessesIn(log: seq<Turn>, s: Seat, i: nat, j: nat): nat
    requires j <= |log|
  {
    if j <= i + 1 then 0 else GuessesIn(log, s, i, j - 1) + if PlayedBy(log[j - 1], s) then 1 else 0
  }

  /** A new keyboard for s: the opponent's Confuse, or a Rogue's passive, past no shield. */
  ghost predicate Scrambles(t: Turn, s: Seat) {
    && !t.Before(s).fx.shield
    && (Uses(t, Facing(s), Confuse) || (t.Before(Facing(s)).kind == Rogue && NewGreenBy(t, Facing(s))))
  }

  /** It is a keyboard of the 26 letters, and a Rogue's passive swaps just two keys of the one
      there was. */
  lemma KeysSet(t: Turn, p: Puzzle, s: Seat)
    requires Lawful(t, p) && Scrambles(t, s) && KeysOk(t.Before(s).fx.keymap, t.Before(s).fx.scrambledGuesses)
    ensures t.After(s).fx.keymap.Some? && Permutation(t.After(s).fx.keymap.value) && t.After(s).fx.scrambledGuesses == 2
    ensures !Uses(t, Facing(s), Confuse) ==> KeysTurned(t.Before(s).fx.keymap, t.After(s).fx.keymap)
  {
    if Uses(t, Facing(s), Confuse) {
      CastUsed(t, p, Facing(s), Confuse);
    } else {
      PassiveGoesOff(t, p, Facing(s));
      DuelSafety.TurnedOk(t.Before(s).fx.keymap, t.Before(s).fx.scrambledGuesses, t.After(s).fx.keymap);
    }
    hide Lawful, NewGreenBy, MayCast, EyesAimed, KeysTurned, Permutation, KeysOk;
  }

  /** A played guess wears the keyboard out by one. */
  lemma KeysWear(t: Turn, p: Puzzle, s: Seat)
    requires Lawful(t, p) && PlayedBy(t, s)
    ensures var from, to := t.Before(s).fx, t.After(s).fx;
            && to.scrambledGuesses == (if from.scrambledGuesses > 0 then from.scrambledGuesses - 1 else from.scrambledGuesses)
            && to.keymap == if from.scrambledGuesses == 1 then None else from.keymap
  {
    GuessMade(t, p, s);
    hide Lawful, GuessAnswer, EyesAimed, Provoked, FindsGreen, RecordedRow, EndingOf, LearnedGreens, LearnedFound, Gain, Elo.Closeness;
  }

  lemma KeysKept(t: Turn, p: Puzzle, s: Seat)
    requires Lawful(t, p) && Frame(t, s) && !PlayedBy(t, s) && !Uses(t, s, Purify) && !HitBy(t, s, Confuse)
    requires !NewGreenBy(t, Facing(s))
    ensures SameKeys(t.Before(s).fx, t.After(s).fx)
  {
    if Provokes(t, s) {
      NoGreenNoPassive(t, p, s);
    }
    hide Lawful, NewGreenBy;
  }

  /** A scrambled keyboard lasts for exactly two guesses s plays, unless s purifies itself, a
      slate is wiped, or it is scrambled again. */
  lemma {:induction false} KeysLast(log: seq<Turn>, p: Puzzle, s: Seat, i: nat, j: nat)
    requires Runs(log, p) && i < j < |log| && log[i].After(s).fx.keymap.Some? && log[i].After(s).fx.scrambledGuesses == 2
    requires forall k | i < k < j :: !FatedTo(log[k], CleanSlate) && !Uses(log[k], s, Purify)
                                     && !HitBy(log[k], s, Confuse) && !NewGreenBy(log[k], Facing(s))
    ensures var c := GuessesIn(log, s, i, j);
            && log[j].Before(s).fx.keymap == (if c < 2 then log[i].After(s).fx.keymap else None)
            && log[j].Before(s).fx.scrambledGuesses == if c < 2 then 2 - c else 0
    decreases j
  {
    hide Lawful, Frame, Runs, NewGreenBy;
    NextSide(log, p, j - 1, s);
    if i < j - 1 {
      KeysLast(log, p, s, i, j - 1);
      LawfulAt(log, p, j - 1);
      FrameAt(log, p, j - 1, s);
      if PlayedBy(log[j - 1], s) {
        KeysWear(log[j - 1], p, s);
      } else {
        KeysKept(log[j - 1], p, s);
      }
    }
  }

  /** A turned keyboard has exactly two letters in each other's place, on the plain keyboard if
      there was none. */
  lemma TwoKeysTurned(from: Option<seq<char>>, left: int, to: Option<seq<char>>) returns (i: nat, j: nat)
    requires KeysOk(from, left) && KeysTurned(from, to)
    ensures var keys := if from.Some? then from.value else "ABCDEFGHIJKLMNOPQRSTUVWXYZ";
            && to.Some? && |to.value| == |keys| == 26 && i < 26 && j < 26 && keys[i] != keys[j]
            && to.value[i] == keys[j] && to.value[j] == keys[i]
            && forall k | 0 <= k < 26 && k != i && k != j :: to.value[k] == keys[k]
  {
    assert Alphabet() == "ABCDEFGHIJKLMNOPQRSTUVWXYZ";
    AlphabetPermutation();
    var keys := if from.Some? then from.value else Alphabet();
    i, j :| i < 26 && j < 26 && i != j && to.value == Swapped(keys, i, j);
    assert keys[if i < j then i else j] != keys[if i < j then j else i];
  }

  // ----- Missiles

  lemma MissileSet(t: Turn, p: Puzzle, s: Seat)
    requires Lawful(t, p) && Uses(t, Facing(s), MagicMissile)
    ensures t.After(s).fx.missiles == t.Before(s).fx.missiles + [t.now + 15 * SECOND]
  {
    CastUsed(t, p, Facing(s), MagicMissile);
    hide Lawful, MayCast;
  }

  /** From one side to the other: exactly the missiles due by now are gone, and what they
      did, in numbers. */
  ghost predicate Harmed(from: Side, to: Side, gained: nat, now: Time) {
    var energy, due := from.fx.energy + gained, |from.fx.missiles| - |to.fx.missiles|;
    var hits := if from.fx.shield && due > 0 then due - 1 else due;
    && (forall at: Time :: multiset(to.fx.missiles)[at] == if now < at then multiset(from.fx.missiles)[at] else 0)
    && to.fx.energy == (if 5 * hits < energy then energy - 5 * hits else 0)
    && (from.UnusedRows() >= 1 ==> to.UnusedRows() == if hits < from.UnusedRows() then from.UnusedRows() - hits else 1)
    && (to.fx.shield <==> from.fx.shield && due == 0)
    && to.guesses == from.guesses
  }

  lemma TickedHarms(from: Side, gained: nat, now: Time, eyes: seq<Eye>)
    requires from.fx.energy >= 0
    ensures Harmed(from, WithEyes(Ticked(from, gained, now), eyes), gained, now)
  {
    hide Flying, DueCount, Struck, Landed, Ticked;
    FlyOn(from.fx.missiles, now);
    Missiles.MissileHarm(BeforeMissiles(from, gained, now), now);
    TickedAs(from, gained, now);
  }

  lemma FlyOn(missiles: seq<Time>, now: Time)
    ensures forall at: Time :: multiset(Flying(missiles, now))[at] == if now < at then multiset(missiles)[at] else 0
  {
    hide Flying;
    forall at: Time ensures multiset(Flying(missiles, now))[at] == if now < at then multiset(missiles)[at] else 0 {
      Missiles.FlyingExactly(missiles, now, at);
    }
  }

  lemma TickTurn(t: Turn, p: Puzzle, s: Seat)
    requires Lawful(t, p) && t.command.Tick? && t.before.ending.None? && !t.Over()
    ensures t.After(s) == WithEyes(Ticked(t.Before(s), DueEnergy(t.before.nextEnergy, t.now), t.now), t.After(s).fx.eyes)
    ensures t.after.nextEnergy == ClockAt(Clock(0, t.before.nextEnergy), t.now).next
    ensures EyesAimed(EyeDue, t.Before(s).fx.eyes, t.After(s).fx.eyes, t.Before(Facing(s)).guesses, t.Before(Facing(s)).fx.destroyed, t.now)
  {
    hide EyesAimed, DueEnergy, Ticked;
  }

  /** What a tick that doesn't end the duel does: energy for every thirty seconds gone by, and
      the harm of the missiles due. */
  lemma TickHarm(t: Turn, p: Puzzle, s: Seat)
    requires Lawful(t, p) && t.command.Tick? && t.before.ending.None? && !t.Over() && t.Before(s).fx.energy >= 0
    ensures (t.after.nextEnergy - t.before.nextEnergy) % 30000 == 0 && t.now < t.after.nextEnergy
    ensures t.before.nextEnergy <= t.after.nextEnergy && (t.before.nextEnergy < t.after.nextEnergy ==> t.after.nextEnergy - 30000 <= t.now)
    ensures Harmed(t.Before(s), t.After(s), (t.after.nextEnergy - t.before.nextEnergy) / 30000, t.now)
  {
    hide Lawful, DueEnergy, Harmed, Ticked, EyesAimed;
    TickTurn(t, p, s);
    ClockTurns(t.before.nextEnergy, t.now);
    TickedHarms(t.Before(s), DueEnergy(t.before.nextEnergy, t.now), t.now, t.After(s).fx.eyes);
  }

  function BeforeMissiles(s: Side, gained: nat, now: Time): Side {
    s.(fx := s.fx.(energy := s.fx.energy + gained,
                   stunnedUntil := if s.fx.stunnedUntil <= now then ZERO else s.fx.stunnedUntil,
                   silencedUntil := if s.fx.silencedUntil <= now then ZERO else s.fx.silencedUntil))
  }

  lemma TickedAs(s: Side, gained: nat, now: Time)
    ensures Ticked(s, gained, now) == Landed(BeforeMissiles(s, gained, now), now)
    ensures Landed(BeforeMissiles(s, gained, now), now).fx.missiles == Flying(s.fx.missiles, now)
  {
    hide Struck;
  }

  lemma ClockTurns(next: Time, now: Time)
    ensures var c := ClockAt(Clock(0, next), now);
            && c.energy == DueEnergy(next, now) && c.next == next + 30000 * c.energy && now < c.next
            && (c.energy > 0 ==> c.next - 30000 <= now) && (c.next - next) / 30000 == c.energy && (c.next - next) % 30000 == 0
  {
  }

  lemma MissilesKept(t: Turn, p: Puzzle, s: Seat, at: Time)
    requires Lawful(t, p) && Frame(t, s) && at in t.Before(s).fx.missiles && !PlayedBy(t, s) && !Uses(t, s, Purify)
    requires t.command.Tick? ==> t.now < at
    ensures at in t.After(s).fx.missiles
  {
    if Uses(t, Facing(s), MagicMissile) {
      MissileSet(t, p, s);
    } else if t.command.Tick? {
      StillFlying(t, p, s, at);
    }
    hide Lawful;
  }

  lemma StillFlying(t: Turn, p: Puzzle, s: Seat, at: Time)
    requires Lawful(t, p) && t.command.Tick? && t.now < at && at in t.Before(s).fx.missiles
    ensures at in t.After(s).fx.missiles
  {
    if t.before.ending.None? && !t.Over() {
      TickTurn(t, p, s);
      TickedAs(t.Before(s), DueEnergy(t.before.nextEnergy, t.now), t.now);
      Missiles.FlyingExactly(t.Before(s).fx.missiles, t.now, at);
      assert multiset(Flying(t.Before(s).fx.missiles, t.now))[at] > 0;
    }
    hide EyesAimed, DueEnergy, Flying, Landed, Ticked, TickedTable;
  }

  /** A Magic Missile flies at s for fifteen seconds, whatever else happens, unless s plays a
      guess or purifies itself, or a slate is wiped; and the first tick then lands it. */
  lemma MissileFlies(log: seq<Turn>, p: Puzzle, s: Seat, i: nat, j: nat)
    requires Runs(log, p) && i < j < |log| && Uses(log[i], Facing(s), MagicMissile)
    requires forall k | i < k < j :: !PlayedBy(log[k], s) && !Uses(log[k], s, Purify) && !FatedTo(log[k], CleanSlate)
    requires forall k | i < k < j && log[k].command.Tick? :: log[k].now < log[i].now + 15 * SECOND
    ensures log[i].now + 15 * SECOND in log[j].Before(s).fx.missiles
    ensures log[j].command.Tick? && log[j].before.ending.None? && !log[j].Over() && log[j].Before(s).fx.energy >= 0 ==>
              (log[i].now + 15 * SECOND in log[j].After(s).fx.missiles <==> log[j].now < log[i].now + 15 * SECOND)
  {
    hide Lawful, Frame, Runs;
    var at := log[i].now + 15 * SECOND;
    LawfulAt(log, p, i);
    LawfulAt(log, p, j);
    MissileSet(log[i], p, s);
    forall k | i < k < j ensures at in log[k].Before(s).fx.missiles ==> at in log[k].After(s).fx.missiles {
      if at in log[k].Before(s).fx.missiles {
        LawfulAt(log, p, k);
        FrameAt(log, p, k, s);
        MissilesKept(log[k], p, s, at);
      }
    }
    Lasts(log, p, s, i, j, (x: Side) => at in x.fx.missiles);
    if log[j].command.Tick? && log[j].before.ending.None? && !log[j].Over() && log[j].Before(s).fx.energy >= 0 {
      TickHarm(log[j], p, s);
      assert multiset(log[j].Before(s).fx.missiles)[at] > 0;
      assert at in log[j].After(s).fx.missiles <==> multiset(log[j].After(s).fx.missiles)[at] > 0;
    }
  }

  // ----- Shields

  /** A shield turns away whatever an ability would have done to s, and the caster pays all
      the same. */
  lemma ShieldStops(t: Turn, p: Puzzle, s: Seat, id: Ability)
    requires Lawful(t, p) && Uses(t, Facing(s), id) && Stoppable(id) && t.Before(s).fx.shield
    ensures t.After(s) == t.Before(s).(fx := t.Before(s).fx.(shield := false))
    ensures var caster := t.Before(Facing(s));
            t.After(Facing(s)) == caster.(fx := caster.fx.(energy := caster.fx.energy - Cost(id)))
  {
    CastUsed(t, p, Facing(s), id);
    hide Lawful, MayCast, EyesAimed, Aimed, Permutation;
  }

  lemma ShieldSet(t: Turn, p: Puzzle, s: Seat)
    requires Lawful(t, p) && Uses(t, s, ShieldsUp)
    ensures !t.Before(s).fx.shield && t.After(s) == Spent(t.Before(s), Cost(ShieldsUp)).(fx := t.After(s).fx) && t.After(s).fx.shield
  {
    CastUsed(t, p, s, ShieldsUp);
    hide Lawful;
  }

  lemma ShieldKept(t: Turn, p: Puzzle, s: Seat)
    requires Lawful(t, p) && Frame(t, s) && !Tested(t, s) && t.Before(s).fx.shield
    ensures t.After(s).fx.shield
  {
    if Uses(t, s, ShieldsUp) {
      ShieldSet(t, p, s);
    }
    hide Lawful;
  }

  /** Raised, it stands until something it stops comes at s, or a slate is wiped. */
  lemma ShieldStands(log: seq<Turn>, p: Puzzle, s: Seat, i: nat, j: nat)
    requires Runs(log, p) && i < j < |log| && Uses(log[i], s, ShieldsUp)
    requires forall k | i < k < j :: !Tested(log[k], s) && !FatedTo(log[k], CleanSlate)
    ensures log[j].Before(s).fx.shield
  {
    hide Lawful, Frame, Runs, Tested;
    LawfulAt(log, p, i);
    ShieldSet(log[i], p, s);
    forall k | i < k < j ensures log[k].Before(s).fx.shield ==> log[k].After(s).fx.shield {
      if log[k].Before(s).fx.shield {
        LawfulAt(log, p, k);
        FrameAt(log, p, k, s);
        ShieldKept(log[k], p, s);
      }
    }
    Lasts(log, p, s, i, j, (x: Side) => x.fx.shield);
  }

  // ----- Deadlines and endings

  /** The deadline moves only by Sudden Death, forward to two minutes away, and by a clean
      slate, which takes it off. */
  lemma DeadlineMoves(t: Turn, p: Puzzle)
    requires Lawful(t, p)
    ensures if FatedTo(t, CleanSlate) then t.after.deadline == ZERO
            else if FatedTo(t, SuddenDeath) then
              t.after.deadline == if t.before.deadline == ZERO || t.now + 120 * SECOND < t.before.deadline
                                  then t.now + 120 * SECOND else t.before.deadline
            else t.after.deadline == t.before.deadline
  {
    hide GuessEffect, RecordedRow, EndingOf, GuessAnswer, CastEffect, FateEffect, MayCast, Offerable, ReshapeEffect, EyesAimed, Ticked, TriesIllusion;
  }

  /** Two minutes after Sudden Death the next tick makes it a draw, if the duel is still on and
      no slate was wiped. */
  lemma SuddenDeathEnds(log: seq<Turn>, p: Puzzle, i: nat, j: nat)
    requires Runs(log, p) && i < j < |log| && FatedTo(log[i], SuddenDeath) && log[i].now >= ZERO && log[i].before.deadline >= ZERO
    requires forall k | i < k < j :: !FatedTo(log[k], CleanSlate)
    requires log[j].command.Tick? && log[j].before.ending.None? && log[j].now >= log[i].now + 120 * SECOND
    ensures log[j].after == log[j].before.(ending := Some(Ending(None, TimeUp)))
  {
    hide Runs;
    DeadlineStands(log, p, i, j);
    LawfulAt(log, p, j);
  }

  lemma {:induction false} DeadlineStands(log: seq<Turn>, p: Puzzle, i: nat, j: nat)
    requires Runs(log, p) && i < j < |log| && FatedTo(log[i], SuddenDeath) && log[i].now >= ZERO && log[i].before.deadline >= ZERO
    requires forall k | i < k < j :: !FatedTo(log[k], CleanSlate)
    ensures ZERO < log[j].before.deadline <= log[i].now + 120 * SECOND
    decreases j
  {
    hide Lawful;
    DeadlineMoves(log[j - 1], p);
    InOrder(log, p, i, j - 1);
    if i < j - 1 {
      DeadlineStands(log, p, i, j - 1);
    }
  }

  /** How a duel ends, and who wins: a side by guessing its word, or because the other gave up;
      nobody when both are out of rows, or the deadline has come; and in no other way. */
  lemma WhoWins(t: Turn, p: Puzzle)
    requires Lawful(t, p) && t.before.ending.None? && t.Over()
    ensures forall s :: t.after.ending.value.winner == Some(s) <==>
              || (PlayedBy(t, s) && Upper(t.command.guess) == t.Before(s).word)
              || (t.command.GivesUp? && t.command.side == Facing(s))
    ensures t.after.ending.value.winner == None ==>
              || (t.command.Tick? && ZERO != t.before.deadline <= t.now)
              || (t.command.Guess? && t.After(First).Out() && t.After(Second).Out())
  {
    match t.command
    case Guess(seat, guess) => GuessEnds(t, p, seat, guess);
    case Tick => hide TickedTable;
    case _ => hide CastEffect, FateEffect, MayCast, CastOffers, ReshapeEffect;
  }

  lemma GuessEnds(t: Turn, p: Puzzle, seat: Seat, guess: Word)
    requires t.command == Guess(seat, guess) && LawfulGuess(t, seat, guess, p) && t.before.ending.None? && t.Over()
    ensures PlayedBy(t, seat) && |guess| == |t.Before(seat).word|
    ensures t.after.ending.value.winner == if Upper(guess) == t.Before(seat).word then Some(seat) else None
    ensures Upper(guess) != t.Before(seat).word ==> t.After(First).Out() && t.After(Second).Out()
  {
    hide GuessEffect, RecordedRow, GuessAnswer, Elo.Closeness, DuelRules.Guessed;
  }

  // ----- Prices

  /** What each slot costs, class by class. */
  lemma PriceList(kind: Kind, slot: int)
    requires 0 <= slot < 5
    ensures AbilityAt(kind, slot).Some?
    ensures Cost(AbilityAt(kind, slot).value) ==
              match kind
              case Knight => [2, 2, 3, 3, 8][slot]
              case Wizard => [2, 5, 6, 8, 12][slot]
              case Rogue => [2, 5, 6, 7, 10][slot]
              case Cleric => [2, 3, 4, 6, 10][slot]
  {
  }

  /** Who can do what, slot by slot. */
  lemma Loadouts()
    ensures forall slot | 0 <= slot < 5 ::
              && AbilityAt(Knight, slot) == Some([Slash, ShieldsUp, Determination, PommelStrike, Cripple][slot])
              && AbilityAt(Wizard, slot) == Some([Scry, SeeingEye, MagicMissile, CastIllusion, ReshapeReality][slot])
              && AbilityAt(Rogue, slot) == Some([Pickpocket, Cheat, Feint, UnderTheirNose, Confuse][slot])
              && AbilityAt(Cleric, slot) == Some([MinorPrayer, Mend, Purify, MajorPrayer, DivineIntervention][slot])
    ensures forall kind, slot | slot < 0 || 5 <= slot :: AbilityAt(kind, slot).None?
  {
  }

  /** A cast that is used costs its caster its price, and the other side nothing. A prayer
      nobody hears costs nothing; what the gods do with energy is up to them. */
  lemma CastPays(t: Turn, p: Puzzle, s: Seat, id: Ability)
    requires Lawful(t, p) && Uses(t, s, id) && id != DivineIntervention
    ensures t.Before(s).fx.energy >= Cost(id)
    ensures t.After(s).fx.energy == t.Before(s).fx.energy - (if id in {MinorPrayer, MajorPrayer} && !t.command.heard then 0 else Cost(id))
    ensures t.After(Facing(s)).fx.energy == t.Before(Facing(s)).fx.energy
  {
    CastUsed(t, p, s, id);
    hide MayPick, EyesAimed, EyesMended, Aimed, Permutation, CanCast, MendedDestroyed, Without;
  }

  lemma FateShares(f: Fate, now: Time, maxGuesses: int, me: Side, them: Side, me': Side, them': Side)
    requires FateEffect(f, now, maxGuesses, me, them, me', them')
    ensures f == Fortune ==> me'.fx.energy == them.fx.energy && them'.fx.energy == me.fx.energy
    ensures f == NewWord ==> me'.word == them'.word && me'.fx.energy == me.fx.energy
  {
    hide EyesAimed, ExactlyShown, RescoredRows, Untaken, WordsOk;
  }

  /** Fortune swaps what is left once the cast is paid for; a NewWord leaves both sides with equal words. */
  lemma FatesShared(t: Turn, p: Puzzle, s: Seat)
    requires Lawful(t, p) && Uses(t, s, DivineIntervention)
    ensures FatedTo(t, Fortune) ==>
              && t.After(s).fx.energy == t.Before(Facing(s)).fx.energy
              && t.After(Facing(s)).fx.energy == t.Before(s).fx.energy - 10
    ensures FatedTo(t, NewWord) ==>
              && t.After(s).word == t.After(Facing(s)).word
              && t.After(s).fx.energy == t.Before(s).fx.energy - 10
  {
    hide MayCast, FateEffect, CastEffect;
    FateShares(t.reply.cast.fate.value, t.now, p.maxGuesses, Spent(t.Before(s), 10), t.Before(Facing(s)), t.After(s), t.After(Facing(s)));
  }

  /** A pick costs twelve, hit or not, and a hit sets the word. */
  lemma PickPays(t: Turn, p: Puzzle, s: Seat)
    requires Lawful(t, p) && t.command.Pick? && t.command.side == s && t.reply == OfPick(true)
    ensures t.After(s).fx.energy == t.Before(s).fx.energy - 12 >= 0 && t.Before(s).kind == Wizard
    ensures Upper(t.command.word) in t.Before(s).fx.reshape && t.After(s).fx.reshape == []
    ensures if t.Before(Facing(s)).fx.shield then t.After(Facing(s)).word == t.Before(Facing(s)).word
            else t.After(Facing(s)).word == Upper(t.command.word)
  {
    hide EyesAimed, ExactlyShown, RescoredRows, WordsOk;
  }

  /** What Reshape Reality offers: up to five different words, none of them the target's or
      guessed by it. */
  lemma OffersAreNew(t: Turn, p: Puzzle, s: Seat)
    requires Lawful(t, p) && t.command.Cast? && t.command.side == s && t.reply == OfCast(Offered)
    ensures var words, them := t.After(s).fx.reshape, t.Before(Facing(s));
            && |words| <= 5 && (forall i, j | 0 <= i < j < |words| :: words[i] != words[j])
            && (forall w | w in words :: |w| == p.n && w != them.word && forall g | g in them.guesses :: g.word != w)
    ensures t.After(s).fx.energy == t.Before(s).fx.energy && t.After(Facing(s)) == t.Before(Facing(s))
  {
    hide MayCast;
    var words, them := t.After(s).fx.reshape, t.Before(Facing(s));
    forall w | w in words ensures |w| == p.n && w != them.word && forall g | g in them.guesses :: g.word != w {
      var i :| 0 <= i < |words| && words[i] == w;
      assert Untaken(them, words[i]);
    }
  }

  /** A new word takes every mask off: each guess shows both players its real colors against
      it. */
  lemma WordUnmasks(from: Side, to: Side, w: Word)
    requires Rescored(from, to, w)
    ensures to.word == w && |to.guesses| == |from.guesses|
    ensures forall r | 0 <= r < |to.guesses| ::
              && to.guesses[r].word == from.guesses[r].word && |to.guesses[r].word| == |w|
              && to.guesses[r].colors == to.guesses[r].seen == to.guesses[r].shown == Colors(to.guesses[r].word, w)
  {
    hide ExactlyShown;
  }

  /** Energy comes round every thirty seconds, whatever is cast; only a clean slate starts the
      clock again. */
  lemma EnergyClockMoves(t: Turn, p: Puzzle)
    requires Lawful(t, p)
    ensures t.after.nextEnergy == t.before.nextEnergy || t.command.Tick? || (FatedTo(t, CleanSlate) && t.after.nextEnergy == t.now + 30000)
  {
    hide GuessEffect, RecordedRow, EndingOf, GuessAnswer, CastEffect, FateEffect, MayCast, Offerable, ReshapeEffect, EyesAimed, Ticked, TriesIllusion;
  }

  /** A prayer's energy comes back in full, to a duel still on. */
  lemma RefundPays(t: Turn, p: Puzzle, s: Seat)
    requires Lawful(t, p) && t.command.NoAnswer? && t.command.side == s
    ensures t.After(s).fx.energy == t.Before(s).fx.energy + if t.before.ending.None? then t.command.cost else 0
    ensures t.After(Facing(s)) == t.Before(Facing(s))
  {
  }

  // ----- Rows and letters

  /** Determination is worth a row, also to somebody who was out; Cripple takes one, and leaves
      one unused. */
  lemma RowsMove(t: Turn, p: Puzzle, s: Seat)
    requires Lawful(t, p) && |t.Before(s).guesses| <= t.Before(s).rows
    ensures Uses(t, s, Determination) ==> t.After(s).UnusedRows() == t.Before(s).UnusedRows() + 1 && !t.After(s).Out()
    ensures HitBy(t, s, Cripple) ==> t.After(s).UnusedRows() == t.Before(s).UnusedRows() - 1 >= 1
  {
    if Uses(t, s, Determination) {
      CastUsed(t, p, s, Determination);
    } else if HitBy(t, s, Cripple) {
      CastUsed(t, p, Facing(s), Cripple);
    }
    hide Lawful;
  }

  /** Slash hides one letter that could be seen from s's board as the caster sees it, and
      nothing else changes on it. */
  lemma SlashHides(t: Turn, p: Puzzle, s: Seat)
    requires Lawful(t, p) && HitBy(t, s, Slash)
    requires forall r | 0 <= r < |t.Before(s).guesses| :: forall c | 0 <= c < |t.Before(s).guesses[r].colors| :: t.Before(s).guesses[r].colors[c] != Hidden
    ensures var before, after := VisibleColors(t.Before(s).guesses, t.Before(s).fx.destroyed),
                                 VisibleColors(t.After(s).guesses, t.After(s).fx.destroyed);
            var row, col := t.command.req.row, t.command.req.col;
            && 0 <= row < |before| && 0 <= col < |before[row]| && before[row][col] != Hidden
            && after == before[row := before[row][col := Hidden]]
  {
    CastUsed(t, p, Facing(s), Slash);
    var b, a := t.Before(s), t.After(s);
    var row, col := t.command.req.row, t.command.req.col;
    assert a.guesses == b.guesses && a.fx.destroyed == b.fx.destroyed + {Tile(row, col)};
    assert OnBoard(b.guesses, Tile(row, col)) && Tile(row, col) !in b.fx.destroyed;
    hide Lawful, CastEffect, MayCast, EyesAimed;
    HideOne(b.guesses, b.fx.destroyed, row, col);
  }

  lemma HideOne(guesses: seq<GuessRow>, destroyed: set<Tile>, row: nat, col: nat)
    requires row < |guesses| && col < |guesses[row].colors|
    ensures var before := VisibleColors(guesses, destroyed);
            VisibleColors(guesses, destroyed + {Tile(row, col)}) == before[row := before[row][col := Hidden]]
  {
    var before, after := VisibleColors(guesses, destroyed), VisibleColors(guesses, destroyed + {Tile(row, col)});
    forall r | 0 <= r < |guesses| ensures after[r] == before[row := before[row][col := Hidden]][r] {
    }
  }

  // ----- Refusals

  /** When a cast is refused that s has the voice and the energy for: exactly when it could not
      do what it is for. */
  lemma RefusedExactly(t: Turn, p: Puzzle, s: Seat)
    requires Lawful(t, p) && t.command.Cast? && t.command.side == s && t.before.ending.None?
    requires t.Before(s).fx.silencedUntil <= t.now && 0 <= t.command.req.slot < 5
    requires t.Before(s).fx.energy >= Cost(AbilityAt(t.Before(s).kind, t.command.req.slot).value)
    ensures var me, them, req := t.Before(s), t.Before(Facing(s)), t.command.req;
            var at := Tile(req.row, req.col);
            t.reply == OfCast(Refused) <==>
              match AbilityAt(me.kind, req.slot).value
              case ShieldsUp => me.fx.shield
              case Cheat => me.fx.cheat
              case Cripple => them.rows <= |them.guesses| + 1
              case CastIllusion => them.fx.illusion.Some?
              case Slash => !(0 <= at.row < |them.guesses| && 0 <= at.col < |them.guesses[at.row].colors| && at !in them.fx.destroyed)
              case Pickpocket => !(0 <= at.row < |them.guesses| && 0 <= at.col < |them.guesses[at.row].shown|
                                   && them.guesses[at.row].shown[at.col] == Yellow && at !in them.fx.destroyed)
              case Scry => !(|req.letter| == 1 && 'A' <= Upper(req.letter)[0] <= 'Z')
              case Feint => |req.colors| != |me.word| || Hidden in req.colors || Solves(req.colors)
              case UnderTheirNose => |req.colors| != |me.word| || Hidden in req.colors || Solves(req.colors)
              case Mend => !(0 <= req.row < |me.guesses|)
              case _ => false
  {
    hide CastUses, CastOffers;
  }

  // ----- Eyes

  /** A tick moves exactly the eyes whose thirty seconds are up, for thirty more. */
  lemma TickMovesEyes(t: Turn, p: Puzzle, s: Seat)
    requires Lawful(t, p) && t.command.Tick? && t.before.ending.None? && !t.Over()
    ensures var from, to := t.Before(s).fx.eyes, t.After(s).fx.eyes;
            && |to| == |from|
            && forall k | 0 <= k < |from| ::
                 if from[k].next <= t.now then to[k].next == t.now + 30000 else to[k] == from[k]
  {
    hide Lawful, Ticked, DueEnergy;
    TickTurn(t, p, s);
  }

  /** A Wizard's guess that finds a green moves all its eyes right away. */
  lemma WiseMovesEyes(t: Turn, p: Puzzle, s: Seat)
    requires Lawful(t, p) && NewGreenBy(t, s) && t.Before(s).kind == Wizard
    ensures var from, to := t.Before(s).fx.eyes, t.After(s).fx.eyes;
            |to| == |from| && forall k | 0 <= k < |to| :: to[k].next == t.now + 30000
  {
    WiseAims(t, p, s);
    hide Lawful, NewGreenBy, Aimed;
    var from, to := t.Before(s).fx.eyes, t.After(s).fx.eyes;
    if from != [] {
      AllAimed(from, to, t.Before(Facing(s)).guesses, t.Before(Facing(s)).fx.destroyed, t.now);
    }
  }

  lemma AllAimed(from: seq<Eye>, to: seq<Eye>, guesses: seq<GuessRow>, destroyed: set<Tile>, now: Time)
    requires EyesAimed(EyeAll, from, to, guesses, destroyed, now)
    ensures |to| == |from| && forall k | 0 <= k < |to| :: to[k].next == now + 30000
  {
  }

  lemma WiseAims(t: Turn, p: Puzzle, s: Seat)
    requires Lawful(t, p) && NewGreenBy(t, s) && t.Before(s).kind == Wizard
    ensures var from, to := t.Before(s).fx.eyes, t.After(s).fx.eyes;
            if from == [] then to == []
            else EyesAimed(EyeAll, from, to, t.Before(Facing(s)).guesses, t.Before(Facing(s)).fx.destroyed, t.now)
  {
    GuessMade(t, p, s);
    GreenFound(t.Before(s), Upper(t.command.guess));
    hide Lawful, GuessAnswer, EyesAimed, Provoked, FindsGreen, RecordedRow, EndingOf, LearnedGreens, LearnedFound, Gain, Elo.Closeness;
  }

  /** Each Seeing Eye that gets past a shield is one more eye, for thirty seconds on some
      letter nobody else watches, if there is one to see. */
  lemma EyeAdded(t: Turn, p: Puzzle, s: Seat)
    requires Lawful(t, p) && HitBy(t, Facing(s), SeeingEye)
    ensures var from, to, them := t.Before(s).fx.eyes, t.After(s).fx.eyes, t.Before(Facing(s));
            && |to| == |from| + 1 && to[..|from|] == from && to[|from|].next == t.now + 30000
            && (to[|from|].on <==> exists at :: Visible(them.guesses, them.fx.destroyed, at) && forall k | 0 <= k < |from| :: !(from[k].on && from[k].at == at))
            && (to[|from|].on ==> Visible(them.guesses, them.fx.destroyed, to[|from|].at) && forall k | 0 <= k < |from| :: !(from[k].on && from[k].at == to[|from|].at))
  {
    CastUsed(t, p, s, SeeingEye);
    hide Lawful, MayCast, Visible;
    var from, them := t.Before(s).fx.eyes, t.Before(Facing(s));
    forall at ensures CanLookAt(from, them.guesses, them.fx.destroyed, |from|, at) <==>
                      Visible(them.guesses, them.fx.destroyed, at) && forall k | 0 <= k < |from| :: !(from[k].on && from[k].at == at) {
    }
  }

  /** No eye idles while there is a letter to see: after a guess by the opponent that doesn't
      end the duel, if an eye of s is off, s's other eyes watch every letter on the board. */
  lemma IdleEyesLook(t: Turn, p: Puzzle, s: Seat, k: nat, at: Tile)
    requires Lawful(t, p) && Provokes(t, s) && k < |t.After(s).fx.eyes| && !t.After(s).fx.eyes[k].on
    requires Visible(t.After(Facing(s)).guesses, t.After(Facing(s)).fx.destroyed, at)
    ensures exists j | 0 <= j < |t.After(s).fx.eyes| :: j != k && t.After(s).fx.eyes[j].on && t.After(s).fx.eyes[j].at == at
  {
    hide Lawful, Visible, EyesAimed;
    IdleAims(t, p, s);
    IdleLook(t.Before(s).fx.eyes, t.After(s).fx.eyes, t.After(Facing(s)).guesses, t.After(Facing(s)).fx.destroyed, t.now, k, at);
  }

  lemma IdleLook(from: seq<Eye>, to: seq<Eye>, guesses: seq<GuessRow>, destroyed: set<Tile>, now: Time, k: nat, at: Tile)
    requires EyesAimed(EyeIdle, from, to, guesses, destroyed, now) && k < |to| && !to[k].on && Visible(guesses, destroyed, at)
    ensures exists j | 0 <= j < |to| :: j != k && to[j].on && to[j].at == at
  {
    hide Visible;
    assert !from[k].on;
    var mid := to[..k] + from[k..];
    assert !CanLookAt(mid, guesses, destroyed, k, at);
    var j :| 0 <= j < |mid| && j != k && mid[j].on && mid[j].at == at;
    assert to[j] == mid[j];
  }

  lemma IdleAims(t: Turn, p: Puzzle, s: Seat)
    requires Lawful(t, p) && Provokes(t, s)
    ensures EyesAimed(EyeIdle, t.Before(s).fx.eyes, t.After(s).fx.eyes, t.After(Facing(s)).guesses, t.After(Facing(s)).fx.destroyed, t.now)
  {
    GuessMade(t, p, Facing(s));
    hide Lawful, GuessAnswer, EyesAimed, Provoked, FindsGreen, RecordedRow, EndingOf, LearnedGreens, LearnedFound, Gain, Elo.Closeness;
  }
}
