/** Silences, stuns, illusions, keyboards, missiles, shields and deadlines, over histories:
what a player can and cannot do at a later turn because of an earlier one. */
module DuelCurses {
  import opened Wordle
  import opened Boards
  import opened DuelSides
  import opened DuelRules
  import opened DuelTurns
  import opened DuelFrames
  import opened DuelLasting
  import Missiles
  import Elo

  // ----- Passives

  /** A played guess that isn't the last, and has a green where its guesser had none. */
  ghost predicate NewGreenBy(t: Turn, s: Seat) {
    && PlayedBy(t, s) && !t.Over() && |t.command.guess| == |t.Before(s).word|
    && exists i: nat :: i < |t.Before(s).fx.greens| && i < |t.Before(s).word| && !t.Before(s).fx.greens[i]
                        && Upper(t.command.guess)[i] == t.Before(s).word[i]
  }

  lemma {:induction false} CountsGreens(greens: seq<bool>, colors: seq<Color>, n: nat)
    ensures NewGreenCount(greens, colors, n) > 0 <==> exists i: nat :: i < n && NewGreen(greens, colors, i)
  {
    if n > 0 {
      CountsGreens(greens, colors, n - 1);
    }
  }

  lemma GreenFound(me: Side, up: Word)
    requires |up| == |me.word|
    ensures var row := RecordedRow(me, up);
            FindsGreen(DuelRules.Guessed(me, up), row) <==>
              exists i: nat :: i < |me.fx.greens| && i < |me.word| && !me.fx.greens[i] && up[i] == me.word[i]
  {
    var row := RecordedRow(me, up);
    CountsGreens(me.fx.greens, row.colors, |row.word|);
    assert row.word == up && row.colors == Colors(up, me.word);
    forall i: nat ensures (i < |up| && NewGreen(me.fx.greens, row.colors, i)) <==>
                          (i < |me.fx.greens| && i < |me.word| && !me.fx.greens[i] && up[i] == me.word[i]) {
    }
  }

  /** The passive goes off at the opponent exactly for a new green. */
  lemma PassiveGoesOff(t: Turn, p: Puzzle, s: Seat)
    requires Lawful(t, p) && NewGreenBy(t, s)
    ensures Provoked(t.Before(s).kind, t.Before(Facing(s)), WithEyes(t.After(Facing(s)), t.Before(Facing(s)).fx.eyes), t.now)
  {
    GuessMade(t, p, s);
    GreenFound(t.Before(s), Upper(t.command.guess));
    hide Lawful, GuessAnswer, EyesAimed, Provoked, FindsGreen, RecordedRow, EndingOf;
  }

  /** With no new green, a guess does nothing to the opponent but let idle eyes look. */
  lemma NoGreenNoPassive(t: Turn, p: Puzzle, s: Seat)
    requires Lawful(t, p) && Provokes(t, s) && !NewGreenBy(t, Facing(s))
    ensures t.After(s) == WithEyes(t.Before(s), t.After(s).fx.eyes)
  {
    GuessMade(t, p, Facing(s));
    GreenFound(t.Before(Facing(s)), Upper(t.command.guess));
    hide Lawful, GuessAnswer, EyesAimed, Provoked, FindsGreen, RecordedRow, EndingOf;
  }

  /** A shield turns a passive away and is used up by it. */
  lemma PassiveStopped(t: Turn, p: Puzzle, s: Seat)
    requires Lawful(t, p) && NewGreenBy(t, Facing(s)) && t.Before(s).fx.shield && t.Before(Facing(s)).kind != Wizard
    ensures t.After(s) == t.Before(s).(fx := t.Before(s).fx.(shield := false, eyes := t.After(s).fx.eyes))
  {
    PassiveGoesOff(t, p, Facing(s));
    hide Lawful, NewGreenBy, KeysTurned;
    assert WithEyes(WithEyes(t.After(s), t.Before(s).fx.eyes), t.After(s).fx.eyes) == t.After(s);
  }

  // ----- Silence

  /** A silenced side casts nothing. */
  lemma SilencedCastsNothing(t: Turn, p: Puzzle, s: Seat)
    requires Lawful(t, p) && t.command.Cast? && t.command.side == s && t.now < t.Before(s).fx.silencedUntil
    ensures t.reply == OfCast(Refused) && t.after == t.before
  {
    hide CastUses, CastOffers, CanCast;
  }

  /** From a Cleric's guess that finds a green and hits its opponent unshielded, the opponent
      casts nothing for ten seconds, unless a slate is wiped. */
  lemma DivineWillSilences(log: seq<Turn>, p: Puzzle, s: Seat, i: nat, j: nat)
    requires Runs(log, p) && i < j < |log| && log[i].Before(Facing(s)).kind == Cleric
    requires NewGreenBy(log[i], Facing(s)) && !log[i].Before(s).fx.shield
    requires log[j].command.Cast? && log[j].command.side == s && log[j].now < log[i].now + 10 * SECOND
    requires forall k | i < k < j :: !FatedTo(log[k], CleanSlate)
    ensures log[j].reply == OfCast(Refused) && log[j].after == log[j].before
  {
    hide Lawful, Frame, Runs, NewGreenBy;
    var until := log[i].now + 10 * SECOND;
    LawfulAt(log, p, i);
    LawfulAt(log, p, j);
    WillSet(log[i], p, s);
    forall k | i < k < j ensures log[k].Before(s).fx.silencedUntil >= until ==> log[k].After(s).fx.silencedUntil >= until {
      if log[k].Before(s).fx.silencedUntil >= until {
        InOrder(log, p, k, j);
        LawfulAt(log, p, k);
        FrameAt(log, p, k, s);
        SilenceKept(log[k], p, s);
      }
    }
    Lasts(log, p, s, i, j, (x: Side) => x.fx.silencedUntil >= until);
    SilencedCastsNothing(log[j], p, s);
  }

  lemma InOrder(log: seq<Turn>, p: Puzzle, k: nat, j: nat)
    requires Runs(log, p) && k <= j < |log|
    ensures log[k].now <= log[j].now
  {
    hide Lawful;
  }

  lemma WillSet(t: Turn, p: Puzzle, s: Seat)
    requires Lawful(t, p) && t.Before(Facing(s)).kind == Cleric && NewGreenBy(t, Facing(s)) && !t.Before(s).fx.shield
    ensures t.After(s).fx.silencedUntil >= t.now + 10 * SECOND
  {
    PassiveGoesOff(t, p, Facing(s));
    hide Lawful, NewGreenBy;
  }

  lemma SilenceKept(t: Turn, p: Puzzle, s: Seat)
    requires Lawful(t, p) && Frame(t, s) && t.now < t.Before(s).fx.silencedUntil
    ensures t.After(s).fx.silencedUntil >= t.Before(s).fx.silencedUntil
  {
    if Uses(t, s, Purify) {
      SilencedCastsNothing(t, p, s);
    }
    hide Lawful;
  }

  // ----- Stuns

  /** A stunned side cannot guess, nor try its illusion. */
  lemma StunnedCannotGuess(t: Turn, p: Puzzle, s: Seat)
    requires Lawful(t, p) && t.now < t.Before(s).fx.stunnedUntil
    ensures t.command.Guess? && t.command.side == s ==>
              t.reply.OfGuess? && (t.reply.guess.Stuck? || t.reply.guess.NotPlaying?) && t.after == t.before
    ensures t.command.InIllusion? && t.command.side == s ==> t.reply == OfIllusion(None) && t.After(s) == t.Before(s)
  {
    hide GuessPlayed, GuessCounts;
  }

  /** How long a stun at turn t will last, whoever did it: a Pommel Strike, or a Knight's
      guess that finds a green. */
  ghost predicate StunsFor(t: Turn, s: Seat, length: Time) {
    && !t.Before(s).fx.shield
    && ((length == 10 * SECOND && Uses(t, Facing(s), PommelStrike))
        || (length == 5 * SECOND && t.Before(Facing(s)).kind == Knight && NewGreenBy(t, Facing(s))))
  }

  lemma StunSet(t: Turn, p: Puzzle, s: Seat, length: Time)
    requires Lawful(t, p) && StunsFor(t, s, length)
    ensures t.After(s).fx.stunnedUntil >= t.now + length
    ensures t.After(s).fx.stunnedUntil == t.Before(s).fx.stunnedUntil || t.After(s).fx.stunnedUntil == t.now + length
  {
    if Uses(t, Facing(s), PommelStrike) {
      CastUsed(t, p, Facing(s), PommelStrike);
    } else {
      PassiveGoesOff(t, p, Facing(s));
    }
    hide Lawful, NewGreenBy, MayCast, EyesAimed;
  }

  /** From a stun, s neither guesses nor tries an illusion while it lasts, unless s purifies
      itself or a slate is wiped. */
  lemma StunLasts(log: seq<Turn>, p: Puzzle, s: Seat, i: nat, j: nat, length: Time)
    requires Runs(log, p) && i < j < |log| && StunsFor(log[i], s, length)
    requires log[j].now < log[i].now + length
    requires forall k | i < k < j :: !FatedTo(log[k], CleanSlate) && !Uses(log[k], s, Purify)
    ensures log[j].command.Guess? && log[j].command.side == s ==>
              log[j].reply.OfGuess? && (log[j].reply.guess.Stuck? || log[j].reply.guess.NotPlaying?) && log[j].after == log[j].before
    ensures log[j].command.InIllusion? && log[j].command.side == s ==> log[j].reply == OfIllusion(None)
  {
    hide Lawful, Frame, Runs, StunsFor;
    var until := log[i].now + length;
    LawfulAt(log, p, i);
    LawfulAt(log, p, j);
    StunSet(log[i], p, s, length);
    forall k | i < k < j ensures log[k].Before(s).fx.stunnedUntil >= until ==> log[k].After(s).fx.stunnedUntil >= until {
      if log[k].Before(s).fx.stunnedUntil >= until {
        InOrder(log, p, k, j);
        FrameAt(log, p, k, s);
        StunKept(log[k], s);
      }
    }
    Lasts(log, p, s, i, j, (x: Side) => x.fx.stunnedUntil >= until);
    StunnedCannotGuess(log[j], p, s);
  }

  lemma StunKept(t: Turn, s: Seat)
    requires Frame(t, s)
    ensures Uses(t, s, Purify) || t.After(s).fx.stunnedUntil >= t.Before(s).fx.stunnedUntil || t.Before(s).fx.stunnedUntil <= t.now
    ensures HitBy(t, s, PommelStrike) || Provokes(t, s)
            || t.After(s).fx.stunnedUntil == t.Before(s).fx.stunnedUntil || t.After(s).fx.stunnedUntil == ZERO
  {
  }

  /** And it lasts no longer: once its time is up, with nothing since that could stun s again,
      s is not held up by a stun, and with no illusion plays what counts. */
  lemma StunWearsOff(log: seq<Turn>, p: Puzzle, s: Seat, i: nat, j: nat, length: Time)
    requires Runs(log, p) && i < j < |log| && StunsFor(log[i], s, length) && log[i].now >= ZERO
    requires log[i].Before(s).fx.stunnedUntil <= log[i].now + length <= log[j].now
    requires forall k | i < k < j :: !HitBy(log[k], s, PommelStrike) && !NewGreenBy(log[k], Facing(s))
    requires log[j].command.Guess? && log[j].command.side == s && log[j].Before(s).fx.illusion.None?
    ensures log[j].reply.OfGuess? && !log[j].reply.guess.Stuck?
  {
    hide Lawful, Frame, Runs, StunsFor, NewGreenBy;
    var until := log[i].now + length;
    LawfulAt(log, p, i);
    LawfulAt(log, p, j);
    StunSet(log[i], p, s, length);
    StunLength(log[i], s, length);
    forall k | i < k < j ensures log[k].Before(s).fx.stunnedUntil <= until ==> log[k].After(s).fx.stunnedUntil <= until {
      if FatedTo(log[k], CleanSlate) {
        LawfulAt(log, p, k);
        SlateWiped(log[k], p, s);
      } else {
        LawfulAt(log, p, k);
        FrameAt(log, p, k, s);
        StunKept(log[k], s);
        if Provokes(log[k], s) {
          NoGreenNoPassive(log[k], p, s);
        }
      }
    }
    Lasts(log, p, s, i, j, (x: Side) => x.fx.stunnedUntil <= until);
    Unstunned(log[j], p, s);
  }

  lemma StunLength(t: Turn, s: Seat, length: Time)
    requires StunsFor(t, s, length)
    ensures length > 0
  {
  }

  lemma Unstunned(t: Turn, p: Puzzle, s: Seat)
    requires Lawful(t, p) && t.command.Guess? && t.command.side == s
    requires t.Before(s).fx.illusion.None? && t.Before(s).fx.stunnedUntil <= t.now
    ensures t.reply.OfGuess? && !t.reply.guess.Stuck?
  {
    hide GuessPlayed, GuessCounts;
  }

  /** A wiped slate leaves nothing of a side's tricks and curses. */
  lemma SlateWiped(t: Turn, p: Puzzle, s: Seat)
    requires Lawful(t, p) && FatedTo(t, CleanSlate)
    ensures t.After(s).guesses == [] && t.After(s).rows == p.maxGuesses && t.After(s).word == t.Before(s).word
    ensures var fx := t.After(s).fx;
            && fx.energy == 0 && fx.stunnedUntil == ZERO && fx.silencedUntil == ZERO && !fx.shield && !fx.cheat
            && fx.feint.None? && fx.falseNext.None? && fx.illusion.None? && fx.keymap.None? && fx.scrambledGuesses == 0
            && fx.missiles == [] && fx.eyes == [] && fx.destroyed == {} && fx.reshape == [] && fx.found == {}
    ensures t.after.deadline == ZERO && t.after.nextEnergy == t.now + 30000
  {
    hide CastEffect, MayCast;
  }

  // ----- Illusions

  /** A try at the Illusion that counted. */
  predicate Tried(t: Turn, s: Seat) {
    t.command.InIllusion? && t.command.side == s && t.reply.OfIllusion? && t.reply.colors.Some?
  }

  /** How many of the turns after i and before j are such tries. */
  function Tries(log: seq<Turn>, s: Seat, i: nat, j: nat): nat
    requires j <= |log|
  {
    if j <= i + 1 then 0 else Tries(log, s, i, j - 1) + if Tried(log[j - 1], s) then 1 else 0
  }

  lemma IllusionSet(t: Turn, p: Puzzle, s: Seat)
    requires Lawful(t, p) && HitBy(t, s, CastIllusion)
    ensures t.After(s).fx.illusion.Some? && t.After(s).fx.illusion.value.guesses == 0
  {
    CastUsed(t, p, Facing(s), CastIllusion);
    hide Lawful, MayCast;
  }

  lemma IllusionKept(t: Turn, p: Puzzle, s: Seat)
    requires Lawful(t, p) && Frame(t, s) && t.Before(s).fx.illusion.Some? && !Uses(t, s, Purify)
    ensures !(t.command.InIllusion? && t.command.side == s) ==> t.After(s).fx.illusion == t.Before(s).fx.illusion
  {
    if HitBy(t, s, CastIllusion) {
      CastUsed(t, p, Facing(s), CastIllusion);
    }
    hide Lawful, CastEffect;
  }

  /** What a try does: the word frees, and so does the sixth try, at the cost of five energy,
      as far as there is any; any other try counts. */
  lemma TryCounts(t: Turn, p: Puzzle, s: Seat)
    requires Lawful(t, p) && t.Before(s).fx.illusion.Some? && t.command.InIllusion? && t.command.side == s
    ensures Tried(t, s) <==>
              && t.before.ending.None? && t.Before(s).fx.stunnedUntil <= t.now
              && |t.command.guess| == |t.Before(s).fx.illusion.value.word| && Upper(t.command.guess) in p.dictionary
    ensures !Tried(t, s) ==> t.After(s) == t.Before(s)
    ensures Tried(t, s) ==>
              var ill, energy, fx := t.Before(s).fx.illusion.value, t.Before(s).fx.energy, t.After(s).fx;
              if Upper(t.command.guess) == ill.word then fx.illusion.None? && fx.energy == energy
              else if ill.guesses >= 5 then fx.illusion.None? && fx.energy == if energy < 5 then 0 else energy - 5
              else fx.illusion == Some(Illusion(ill.word, ill.guesses + 1)) && fx.energy == energy
  {
    hide Solves;
  }

  /** Trapped: from an Illusion that hits, until the word is found, six tries are used up, s
      purifies itself or a slate is wiped, s can only try the illusion, and every try that
      counted since is on record. */
  lemma {:induction false} IllusionTraps(log: seq<Turn>, p: Puzzle, s: Seat, i: nat, j: nat)
    requires Runs(log, p) && i < j < |log| && HitBy(log[i], s, CastIllusion)
    requires forall k | i < k < j :: !FatedTo(log[k], CleanSlate) && !Uses(log[k], s, Purify)
    requires forall k | i < k < j && Tried(log[k], s) :: Upper(log[k].command.guess) != log[i].After(s).fx.illusion.value.word
    requires Tries(log, s, i, j) < 6
    ensures log[i].After(s).fx.illusion.Some?
    ensures log[j].Before(s).fx.illusion == Some(Illusion(log[i].After(s).fx.illusion.value.word, Tries(log, s, i, j)))
    ensures log[j].command.Guess? && log[j].command.side == s ==>
              log[j].reply.OfGuess? && (log[j].reply.guess.Stuck? || log[j].reply.guess.NotPlaying?) && log[j].after == log[j].before
    decreases j
  {
    hide Lawful, Frame, Runs;
    LawfulAt(log, p, i);
    LawfulAt(log, p, j);
    IllusionSet(log[i], p, s);
    NextSide(log, p, j - 1, s);
    if i < j - 1 {
      IllusionTraps(log, p, s, i, j - 1);
      LawfulAt(log, p, j - 1);
      FrameAt(log, p, j - 1, s);
      IllusionKept(log[j - 1], p, s);
      if log[j - 1].command.InIllusion? && log[j - 1].command.side == s {
        TryCounts(log[j - 1], p, s);
      }
    }
    TrappedCannotGuess(log[j], p, s);
  }

  lemma TrappedCannotGuess(t: Turn, p: Puzzle, s: Seat)
    requires Lawful(t, p) && t.Before(s).fx.illusion.Some?
    ensures t.command.Guess? && t.command.side == s ==>
              t.reply.OfGuess? && (t.reply.guess.Stuck? || t.reply.guess.NotPlaying?) && t.after == t.before
  {
    hide GuessPlayed, GuessCounts;
  }

  // ----- Cheat

  lemma CheatKept(t: Turn, s: Seat)
    requires Frame(t, s)
    ensures PlayedBy(t, s) || Uses(t, s, Cheat) || t.After(s).fx.cheat == t.Before(s).fx.cheat
  {
  }

  lemma CheatSet(t: Turn, p: Puzzle, s: Seat)
    requires Lawful(t, p) && Uses(t, s, Cheat)
    ensures t.After(s).fx.cheat && !t.Before(s).fx.cheat
  {
    CastUsed(t, p, s, Cheat);
    hide Lawful;
  }

  /** Whether a guess by somebody who may guess counts: any letters with Cheat, words without. */
  lemma CountsAs(t: Turn, p: Puzzle, s: Seat)
    requires Lawful(t, p) && t.command.Guess? && t.command.side == s && t.reply.OfGuess?
    requires !t.reply.guess.NotPlaying? && !t.reply.guess.Stuck?
    ensures PlayedBy(t, s) <==>
              && |t.command.guess| == |t.Before(s).word|
              && if t.Before(s).fx.cheat then forall c | c in Upper(t.command.guess) :: 'A' <= c <= 'Z'
                 else Upper(t.command.guess) in p.dictionary
  {
    var up := Upper(t.command.guess);
    assert Letters(up) <==> forall c | c in up :: 'A' <= c <= 'Z' by {
      if forall c | c in up :: 'A' <= c <= 'Z' {
        assert forall i | 0 <= i < |up| :: up[i] in up;
      }
    }
    hide GuessPlayed;
  }

  /** Cheat is good for s's next played guess, word or not. */
  lemma CheatAllows(log: seq<Turn>, p: Puzzle, s: Seat, i: nat, j: nat)
    requires Runs(log, p) && i < j < |log| && Uses(log[i], s, Cheat)
    requires forall k | i < k < j :: !PlayedBy(log[k], s) && !FatedTo(log[k], CleanSlate)
    requires log[j].command.Guess? && log[j].command.side == s && log[j].reply.OfGuess?
    requires !log[j].reply.guess.NotPlaying? && !log[j].reply.guess.Stuck?
    ensures PlayedBy(log[j], s) <==>
              && |log[j].command.guess| == |log[j].Before(s).word|
              && forall c | c in Upper(log[j].command.guess) :: 'A' <= c <= 'Z'
  {
    hide Lawful, Frame, Runs;
    LawfulAt(log, p, i);
    LawfulAt(log, p, j);
    CheatSet(log[i], p, s);
    forall k | i < k < j ensures log[k].Before(s).fx.cheat ==> log[k].After(s).fx.cheat {
      FrameAt(log, p, k, s);
      LawfulAt(log, p, k);
      CheatKept(log[k], s);
      if Uses(log[k], s, Cheat) {
        CheatSet(log[k], p, s);
      }
    }
    Lasts(log, p, s, i, j, (x: Side) => x.fx.cheat);
    CountsAs(log[j], p, s);
  }

  lemma GuessSpends(t: Turn, p: Puzzle, s: Seat)
    requires Lawful(t, p) && PlayedBy(t, s)
    ensures !t.After(s).fx.cheat && t.After(s).fx.feint.None? && t.After(s).fx.falseNext.None?
    ensures !t.Over() ==> t.After(s).fx.missiles == []
  {
    GuessMade(t, p, s);
    if !t.Over() {
      GuessFrames(t.Before(s), t.Before(Facing(s)), Upper(t.command.guess), t.now, t.After(s), t.After(Facing(s)));
    }
    hide Lawful, GuessEffect, GuessAnswer, RecordedRow, Elo.Closeness;
  }

  /** ... and for that one only: after a played guess, with no new Cheat, only words count. */
  lemma CheatIsOver(log: seq<Turn>, p: Puzzle, s: Seat, i: nat, j: nat)
    requires Runs(log, p) && i < j < |log| && PlayedBy(log[i], s)
    requires forall k | i < k < j :: !Uses(log[k], s, Cheat)
    requires PlayedBy(log[j], s)
    ensures Upper(log[j].command.guess) in p.dictionary
  {
    hide Lawful, Frame, Runs;
    LawfulAt(log, p, i);
    LawfulAt(log, p, j);
    GuessSpends(log[i], p, s);
    forall k | i < k < j ensures !log[k].Before(s).fx.cheat ==> !log[k].After(s).fx.cheat {
      LawfulAt(log, p, k);
      if FatedTo(log[k], CleanSlate) {
        SlateWiped(log[k], p, s);
      } else {
        FrameAt(log, p, k, s);
        CheatKept(log[k], s);
        if PlayedBy(log[k], s) {
          GuessSpends(log[k], p, s);
        }
      }
    }
    Lasts(log, p, s, i, j, (x: Side) => !x.fx.cheat);
    CountsAs(log[j], p, s);
  }

  /** Likewise no fake outlives a played guess: with no new Feint the opponent is shown the
      truth, and with no Under Their Nose that hits, so is s. */
  lemma FakesAreOver(log: seq<Turn>, p: Puzzle, s: Seat, i: nat, j: nat)
    requires Runs(log, p) && i < j < |log| && PlayedBy(log[i], s) && PlayedBy(log[j], s)
    requires Upper(log[j].command.guess) != log[j].Before(s).word && log[j].Before(s).word != []
    ensures |log[j].command.guess| == |log[j].Before(s).word|
    ensures (forall k | i < k < j :: !Uses(log[k], s, Feint)) ==>
              log[j].reply.guess.shown == Colors(Upper(log[j].command.guess), log[j].Before(s).word)
    ensures (forall k | i < k < j :: !HitBy(log[k], s, UnderTheirNose)) ==>
              log[j].reply.guess.seen == Colors(Upper(log[j].command.guess), log[j].Before(s).word)
  {
    hide Lawful, Frame, Runs;
    LawfulAt(log, p, i);
    LawfulAt(log, p, j);
    GuessSpends(log[i], p, s);
    FakesShown(log[j], p, s);
    if forall k | i < k < j :: !Uses(log[k], s, Feint) {
      forall k | i < k < j ensures log[k].Before(s).fx.feint.None? ==> log[k].After(s).fx.feint.None? {
        FakeKept(log, p, k, s);
      }
      Lasts(log, p, s, i, j, (x: Side) => x.fx.feint.None?);
    }
    if forall k | i < k < j :: !HitBy(log[k], s, UnderTheirNose) {
      forall k | i < k < j ensures log[k].Before(s).fx.falseNext.None? ==> log[k].After(s).fx.falseNext.None? {
        FakeKept(log, p, k, s);
      }
      Lasts(log, p, s, i, j, (x: Side) => x.fx.falseNext.None?);
    }
  }

  lemma FakeKept(log: seq<Turn>, p: Puzzle, k: nat, s: Seat)
    requires Runs(log, p) && k < |log|
    ensures !Uses(log[k], s, Feint) && log[k].Before(s).fx.feint.None? ==> log[k].After(s).fx.feint.None?
    ensures !HitBy(log[k], s, UnderTheirNose) && log[k].Before(s).fx.falseNext.None? ==> log[k].After(s).fx.falseNext.None?
  {
    hide Lawful, Frame, Runs;
    LawfulAt(log, p, k);
    if FatedTo(log[k], CleanSlate) {
      SlateWiped(log[k], p, s);
    } else {
      FrameAt(log, p, k, s);
      FeintKept(log[k], s);
      if PlayedBy(log[k], s) {
        GuessSpends(log[k], p, s);
      }
      if Uses(log[k], s, Purify) {
        Purified(log[k], p, s);
      }
    }
  }

  // ----- Purify

  /** After Purify nothing holds the caster up: it may guess and cast at any time, types on
      plain keys, is shown the truth, has nothing flying at it, and is watched by no eye. */
  lemma Purified(t: Turn, p: Puzzle, s: Seat)
    requires Lawful(t, p) && Uses(t, s, Purify)
    ensures forall now: Time | now >= ZERO :: !t.After(s).Blocked(now) && t.After(s).fx.silencedUntil <= now
    ensures var fx := t.After(s).fx;
            fx.keymap.None? && fx.scrambledGuesses == 0 && fx.falseNext.None? && fx.missiles == []
    ensures t.After(Facing(s)).fx.eyes == []
    ensures t.After(s).guesses == t.Before(s).guesses && t.After(s).rows == t.Before(s).rows
            && t.After(s).fx.destroyed == t.Before(s).fx.destroyed
  {
    CastUsed(t, p, s, Purify);
    hide Lawful, MayCast;
  }
}
