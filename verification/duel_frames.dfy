/** What one turn can do to the tricks, curses and rows of one side: each changes only by
turns of a few kinds. */
module DuelFrames {
  import opened Wordle
  import opened Boards
  import opened DuelSides
  import opened DuelRules
  import opened DuelTurns
  import Missiles
  import Elo

  /** s cast the ability. */
  predicate Uses(t: Turn, s: Seat, id: Ability) {
    t.command.Cast? && t.command.side == s && t.reply.OfCast? && t.reply.cast.Used? && t.reply.cast.id == id
  }

  /** The opponent cast it, with s unshielded. */
  predicate HitBy(t: Turn, s: Seat, id: Ability) {
    Uses(t, Facing(s), id) && !t.Before(s).fx.shield
  }

  predicate FatedTo(t: Turn, f: Fate) {
    t.command.Cast? && t.reply.OfCast? && t.reply.cast.Used? && t.reply.cast.fate == Some(f)
  }

  predicate PlayedBy(t: Turn, s: Seat) {
    t.command.Guess? && t.command.side == s && t.reply.OfGuess? && t.reply.guess.Played?
  }

  predicate SameKeys(from: SideEffects, to: SideEffects) {
    to.keymap == from.keymap && to.scrambledGuesses == from.scrambledGuesses
  }

  // ----- Casts

  /** What a cast leaves alone on its caster's side, slate and fate aside. */
  predicate CasterFrame(id: Ability, from: Side, to: Side) {
    && (id == Feint || to.fx.feint == from.fx.feint)
    && (id == Cheat || to.fx.cheat == from.fx.cheat)
    && (id == ShieldsUp || to.fx.shield == from.fx.shield)
    && (id == Determination || to.rows == from.rows)
    && (if id == Purify then to.fx.stunnedUntil == ZERO && to.fx.silencedUntil == ZERO
        else
          (&& to.fx.falseNext == from.fx.falseNext && to.fx.illusion == from.fx.illusion && SameKeys(from.fx, to.fx)
           && to.fx.stunnedUntil == from.fx.stunnedUntil && to.fx.silencedUntil == from.fx.silencedUntil
           && to.fx.missiles == from.fx.missiles))
    && to.kind == from.kind && to.solved == from.solved
  }

  /** Abilities a shield stops at the cast. */
  predicate Stoppable(id: Ability) {
    id in {Slash, PommelStrike, Cripple, SeeingEye, CastIllusion, Pickpocket, UnderTheirNose, Confuse}
  }

  /** ... and on the other side. */
  predicate TargetFrame(id: Ability, from: Side, to: Side) {
    && to.fx.feint == from.fx.feint && to.fx.cheat == from.fx.cheat && to.fx.silencedUntil == from.fx.silencedUntil
    && ((id == UnderTheirNose && !from.fx.shield) || to.fx.falseNext == from.fx.falseNext)
    && ((id == PommelStrike && !from.fx.shield) || to.fx.stunnedUntil == from.fx.stunnedUntil)
    && to.fx.stunnedUntil >= from.fx.stunnedUntil
    && ((id == CastIllusion && !from.fx.shield) || to.fx.illusion == from.fx.illusion)
    && ((id == Confuse && !from.fx.shield) || SameKeys(from.fx, to.fx))
    && (id == MagicMissile || to.fx.missiles == from.fx.missiles)
    && (Stoppable(id) || to.fx.shield == from.fx.shield)
    && ((id == Cripple && !from.fx.shield) || to.rows == from.rows)
    && to.kind == from.kind && to.solved == from.solved
  }

  lemma KnightFrame(id: Ability, req: Request, now: Time, maxGuesses: int, me: Side, them: Side, me': Side, them': Side)
    requires CastEffect(id, req, now, maxGuesses, me, them, me', them')
    requires id.Slash? || id.ShieldsUp? || id.Determination? || id.PommelStrike? || id.Cripple?
    ensures CasterFrame(id, me, me') && TargetFrame(id, them, them')
  {
    hide EyesAimed;
  }

  lemma WizardFrame(id: Ability, req: Request, now: Time, maxGuesses: int, me: Side, them: Side, me': Side, them': Side)
    requires CastEffect(id, req, now, maxGuesses, me, them, me', them')
    requires id.Scry? || id.SeeingEye? || id.MagicMissile? || id.CastIllusion?
    ensures CasterFrame(id, me, me') && TargetFrame(id, them, them')
  {
    hide Aimed;
  }

  lemma AloneFrame(id: Ability, req: Request, now: Time, maxGuesses: int, me: Side, them: Side, me': Side, them': Side)
    requires CastEffect(id, req, now, maxGuesses, me, them, me', them')
    requires id.Cheat? || id.Feint? || id.MinorPrayer? || id.MajorPrayer?
    ensures CasterFrame(id, me, me') && TargetFrame(id, them, them')
  {
  }

  lemma RogueFrame(id: Ability, req: Request, now: Time, maxGuesses: int, me: Side, them: Side, me': Side, them': Side)
    requires CastEffect(id, req, now, maxGuesses, me, them, me', them')
    requires id.Pickpocket? || id.UnderTheirNose? || id.Confuse?
    ensures CasterFrame(id, me, me') && TargetFrame(id, them, them')
  {
    hide Permutation;
  }

  lemma ClericFrame(id: Ability, req: Request, now: Time, maxGuesses: int, me: Side, them: Side, me': Side, them': Side)
    requires CastEffect(id, req, now, maxGuesses, me, them, me', them')
    requires id.Mend? || id.Purify?
    ensures CasterFrame(id, me, me') && TargetFrame(id, them, them')
  {
    hide EyesMended, Without, MendedDestroyed, FateEffect, EyesAimed, Aimed;
  }

  lemma FateFrame(f: Fate, now: Time, maxGuesses: int, me: Side, them: Side, me': Side, them': Side)
    requires FateEffect(f, now, maxGuesses, me, them, me', them') && f != CleanSlate
    ensures CasterFrame(DivineIntervention, me, me') && TargetFrame(DivineIntervention, them, them')
  {
    hide EyesAimed, ExactlyShown, RescoredRows, Untaken, WordsOk;
  }

  lemma CastFrame(t: Turn, p: Puzzle, s: Seat, req: Request, heard: bool)
    requires t.command == Cast(s, req, heard) && LawfulCast(t, s, req, heard, p) && t.reply.cast.Used? && !FatedTo(t, CleanSlate)
    ensures CasterFrame(t.reply.cast.id, t.Before(s), t.After(s))
    ensures TargetFrame(t.reply.cast.id, t.Before(Facing(s)), t.After(Facing(s)))
  {
    hide CastEffect, FateEffect, CasterFrame, TargetFrame, MayCast;
    var id, fate := t.reply.cast.id, t.reply.cast.fate;
    var me, paid, them := t.Before(s), Spent(t.Before(s), Cost(t.reply.cast.id)), t.Before(Facing(s));
    var me', them' := t.After(s), t.After(Facing(s));
    if id == DivineIntervention {
      FateFrame(fate.value, t.now, p.maxGuesses, paid, them, me', them');
    } else if id.Slash? || id.ShieldsUp? || id.Determination? || id.PommelStrike? || id.Cripple? {
      KnightFrame(id, req, t.now, p.maxGuesses, paid, them, me', them');
    } else if id.Scry? || id.SeeingEye? || id.MagicMissile? || id.CastIllusion? {
      WizardFrame(id, req, t.now, p.maxGuesses, paid, them, me', them');
    } else if id.Mend? || id.Purify? {
      ClericFrame(id, req, t.now, p.maxGuesses, paid, them, me', them');
    } else if id.Cheat? || id.Feint? || id.MinorPrayer? || id.MajorPrayer? {
      AloneFrame(id, req, t.now, p.maxGuesses, paid, them, me', them');
    } else {
      RogueFrame(id, req, t.now, p.maxGuesses, paid, them, me', them');
    }
    PaidFrame(id, me, me');
  }

  lemma PaidFrame(id: Ability, me: Side, me': Side)
    ensures CasterFrame(id, Spent(me, Cost(id)), me') <==> CasterFrame(id, me, me')
  {
  }

  // ----- Turns

  /** The opponent's guess found it a green: its passive may have gone off at s. */
  predicate Provokes(t: Turn, s: Seat) {
    PlayedBy(t, Facing(s)) && !t.Over()
  }

  /** A missile flying at s is due. */
  predicate MissileDue(t: Turn, s: Seat) {
    t.command.Tick? && exists i :: 0 <= i < |t.Before(s).fx.missiles| && t.Before(s).fx.missiles[i] <= t.now
  }

  /** Something that a shield stops came at s. */
  predicate Tested(t: Turn, s: Seat) {
    || (t.command.Cast? && t.command.side == Facing(s) && t.reply.OfCast? && t.reply.cast.Used? && Stoppable(t.reply.cast.id))
    || Provokes(t, s) || (t.command.Pick? && t.command.side == Facing(s) && t.reply == OfPick(true)) || MissileDue(t, s)
  }

  /** s's tricks and curses after a turn that doesn't wipe the slate: what changed, changed
      for one of these reasons. Stuns and silences are only ever made longer, until they are
      over or purified. */
  ghost predicate Frame(t: Turn, s: Seat) {
    var from, to := t.Before(s).fx, t.After(s).fx;
    && t.After(s).kind == t.Before(s).kind
    && (PlayedBy(t, s) || Uses(t, s, Feint) || to.feint == from.feint)
    && (PlayedBy(t, s) || HitBy(t, s, UnderTheirNose) || Uses(t, s, Purify) || to.falseNext == from.falseNext)
    && (PlayedBy(t, s) || Uses(t, s, Cheat) || to.cheat == from.cheat)
    && (Uses(t, s, Purify) || to.stunnedUntil >= from.stunnedUntil || (t.command.Tick? && from.stunnedUntil <= t.now))
    && (HitBy(t, s, PommelStrike) || Provokes(t, s) || to.stunnedUntil == from.stunnedUntil || to.stunnedUntil == ZERO)
    && (Uses(t, s, Purify) || to.silencedUntil >= from.silencedUntil || (t.command.Tick? && from.silencedUntil <= t.now))
    && (Provokes(t, s) || to.silencedUntil == from.silencedUntil || to.silencedUntil == ZERO)
    && (HitBy(t, s, CastIllusion) || Uses(t, s, Purify) || (t.command.InIllusion? && t.command.side == s) || to.illusion == from.illusion)
    && (PlayedBy(t, s) || Uses(t, s, Purify) || HitBy(t, s, Confuse) || Provokes(t, s) || SameKeys(from, to))
    && (PlayedBy(t, s) || Uses(t, s, Purify) || Uses(t, Facing(s), MagicMissile) || t.command.Tick? || to.missiles == from.missiles)
    && (Uses(t, s, ShieldsUp) || Tested(t, s) || to.shield == from.shield)
    && (Uses(t, s, Determination) || HitBy(t, s, Cripple) || MissileDue(t, s) || t.After(s).rows == t.Before(s).rows)
  }

  lemma SameFrame(t: Turn, s: Seat)
    requires t.After(s) == t.Before(s)
    ensures Frame(t, s)
  {
  }

  lemma GuessFrames(me: Side, them: Side, up: Word, now: Time, me': Side, them': Side)
    requires GuessEffect(me, them, up, now, me', them')
    ensures me'.kind == me.kind && them'.kind == them.kind && me'.rows == me.rows && them'.rows == them.rows
    ensures me'.fx.stunnedUntil == me.fx.stunnedUntil && me'.fx.silencedUntil == me.fx.silencedUntil
    ensures me'.fx.illusion == me.fx.illusion && me'.fx.shield == me.fx.shield
    ensures me'.fx.feint.None? && me'.fx.falseNext.None? && !me'.fx.cheat && me'.fx.missiles == []
    ensures them'.fx.feint == them.fx.feint && them'.fx.falseNext == them.fx.falseNext && them'.fx.cheat == them.fx.cheat
    ensures them'.fx.stunnedUntil >= them.fx.stunnedUntil && them'.fx.silencedUntil >= them.fx.silencedUntil
    ensures them'.fx.illusion == them.fx.illusion && them'.fx.missiles == them.fx.missiles
  {
    hide EyesAimed, RecordedRow, LearnedGreens, LearnedFound, Gain, Elo.Closeness, KeysTurned, FindsGreen;
  }

  lemma OverFrame(me: Side, up: Word)
    requires |up| == |me.word|
    ensures var g := Guessed(me, up);
            g.kind == me.kind && g.rows == me.rows
            && g.fx.stunnedUntil == me.fx.stunnedUntil && g.fx.silencedUntil == me.fx.silencedUntil
            && g.fx.illusion == me.fx.illusion && g.fx.shield == me.fx.shield
  {
    hide RecordedRow, Elo.Closeness;
  }

  lemma GuessTurnFrame(t: Turn, p: Puzzle, seat: Seat, guess: Word, s: Seat)
    requires t.command == Guess(seat, guess) && LawfulGuess(t, seat, guess, p)
    ensures Frame(t, s)
  {
    hide GuessEffect, Guessed, RecordedRow, EndingOf, GuessCounts, Frame;
    var me, them, up := t.Before(seat), t.Before(Facing(seat)), Upper(guess);
    if !t.reply.guess.Played? || (t.Over() && s != seat) {
      SameFrame(t, s);
    } else if t.Over() {
      OverFrame(me, up);
      PlayedFrame(t, s);
    } else {
      GuessFrames(me, them, up, t.now, t.After(seat), t.After(Facing(seat)));
      if s == seat {
        PlayedFrame(t, s);
      } else {
        ProvokedFrame(t, s);
      }
    }
  }

  lemma PlayedFrame(t: Turn, s: Seat)
    requires PlayedBy(t, s) && t.After(s).kind == t.Before(s).kind && t.After(s).rows == t.Before(s).rows
    requires var from, to := t.Before(s).fx, t.After(s).fx;
             && to.stunnedUntil == from.stunnedUntil && to.silencedUntil == from.silencedUntil
             && to.illusion == from.illusion && to.shield == from.shield
    ensures Frame(t, s)
  {
  }

  lemma ProvokedFrame(t: Turn, s: Seat)
    requires Provokes(t, s) && t.After(s).kind == t.Before(s).kind && t.After(s).rows == t.Before(s).rows
    requires var from, to := t.Before(s).fx, t.After(s).fx;
             && to.feint == from.feint && to.falseNext == from.falseNext && to.cheat == from.cheat
             && to.stunnedUntil >= from.stunnedUntil && to.silencedUntil >= from.silencedUntil
             && to.illusion == from.illusion && to.missiles == from.missiles
    ensures Frame(t, s)
  {
  }

  lemma CasterKeeps(t: Turn, s: Seat)
    requires t.command.Cast? && t.command.side == s && t.reply.OfCast? && t.reply.cast.Used?
    requires CasterFrame(t.reply.cast.id, t.Before(s), t.After(s))
    ensures Frame(t, s)
  {
  }

  lemma TargetKeeps(t: Turn, s: Seat)
    requires t.command.Cast? && t.command.side == Facing(s) && t.reply.OfCast? && t.reply.cast.Used?
    requires TargetFrame(t.reply.cast.id, t.Before(s), t.After(s))
    ensures Frame(t, s)
  {
  }

  lemma OfferFrame(t: Turn, s: Seat)
    requires t.After(s) == t.Before(s).(fx := t.Before(s).fx.(reshape := t.After(s).fx.reshape))
    ensures Frame(t, s)
  {
  }

  lemma CastTurnFrame(t: Turn, p: Puzzle, seat: Seat, req: Request, heard: bool, s: Seat)
    requires t.command == Cast(seat, req, heard) && LawfulCast(t, seat, req, heard, p) && !FatedTo(t, CleanSlate)
    ensures Frame(t, s)
  {
    hide Offerable, MayCast, Frame, CastUses, CasterFrame, TargetFrame;
    if t.reply.cast.Used? {
      CastFrame(t, p, seat, req, heard);
      if s == seat {
        CasterKeeps(t, s);
      } else {
        TargetKeeps(t, s);
      }
    } else if t.reply.cast.Offered? && s == seat {
      OfferFrame(t, s);
    } else {
      SameFrame(t, s);
    }
  }

  lemma RescoredFields(from: Side, to: Side, w: Word)
    requires Rescored(from, to, w)
    ensures to == from.(word := w, guesses := to.guesses, best := to.best,
                        fx := from.fx.(greens := to.fx.greens, found := to.fx.found, eyes := to.fx.eyes))
  {
    hide ExactlyShown;
  }

  lemma PickedFrame(t: Turn, s: Seat)
    requires t.command.Pick? && t.command.side == Facing(s) && t.reply == OfPick(true)
    requires t.After(s).kind == t.Before(s).kind && t.After(s).rows == t.Before(s).rows
    requires var from, to := t.Before(s).fx, t.After(s).fx;
             to == from.(shield := to.shield, greens := to.greens, found := to.found, eyes := to.eyes)
    ensures Frame(t, s)
  {
  }

  lemma PickerFrame(t: Turn, s: Seat)
    requires t.After(s) == WithEyes(ReshapePaid(t.Before(s)), t.After(s).fx.eyes)
    ensures Frame(t, s)
  {
  }

  lemma PickFrame(t: Turn, seat: Seat, word: Word, s: Seat)
    requires t.command == Pick(seat, word) && LawfulPick(t, seat, word)
    ensures Frame(t, s)
  {
    hide EyesAimed, Rescored, Frame;
    if !t.reply.done {
      SameFrame(t, s);
    } else if s == seat {
      PickerFrame(t, s);
    } else {
      if !t.Before(s).fx.shield {
        RescoredFields(t.Before(s), t.After(s), Upper(word));
      }
      PickedFrame(t, s);
    }
  }

  lemma NoMissileDue(missiles: seq<Time>, now: Time)
    requires forall i | 0 <= i < |missiles| :: now < missiles[i]
    ensures DueCount(missiles, now) == 0
  {
    Missiles.NoneLost(missiles, now);
  }

  lemma TickedFields(s: Side, gained: nat, now: Time)
    ensures var t := Ticked(s, gained, now);
            && t.kind == s.kind && t.fx.feint == s.fx.feint && t.fx.falseNext == s.fx.falseNext && t.fx.cheat == s.fx.cheat
            && t.fx.illusion == s.fx.illusion && SameKeys(s.fx, t.fx)
            && t.fx.stunnedUntil == (if s.fx.stunnedUntil <= now then ZERO else s.fx.stunnedUntil)
            && t.fx.silencedUntil == (if s.fx.silencedUntil <= now then ZERO else s.fx.silencedUntil)
            && (DueCount(s.fx.missiles, now) == 0 ==> t.fx.shield == s.fx.shield && t.rows == s.rows)
  {
    hide Flying, DueCount;
  }

  lemma QuietFrame(t: Turn, s: Seat)
    requires t.command.Tick? && t.After(s).kind == t.Before(s).kind
    requires var from, to := t.Before(s).fx, t.After(s).fx;
             && to.feint == from.feint && to.falseNext == from.falseNext && to.cheat == from.cheat
             && to.illusion == from.illusion && SameKeys(from, to)
             && to.stunnedUntil == (if from.stunnedUntil <= t.now then ZERO else from.stunnedUntil)
             && to.silencedUntil == (if from.silencedUntil <= t.now then ZERO else from.silencedUntil)
             && (MissileDue(t, s) || (to.shield == from.shield && t.After(s).rows == t.Before(s).rows))
    ensures Frame(t, s)
  {
  }

  lemma TickFrame(t: Turn, s: Seat)
    requires t.command.Tick? && LawfulTick(t)
    ensures Frame(t, s)
  {
    hide EyesAimed, DueEnergy, Flying, DueCount, Ticked, Frame;
    if !MissileDue(t, s) {
      NoMissileDue(t.Before(s).fx.missiles, t.now);
    }
    if t.After(s) == t.Before(s) {
      SameFrame(t, s);
    } else {
      TickedFields(t.Before(s), DueEnergy(t.before.nextEnergy, t.now), t.now);
      QuietFrame(t, s);
    }
  }

  /** Every turn by the rules, slates wiped aside, keeps the frame of either side. */
  lemma TurnFrame(t: Turn, p: Puzzle, s: Seat)
    requires Lawful(t, p) && !FatedTo(t, CleanSlate)
    ensures Frame(t, s)
  {
    hide Frame, LawfulGuess, LawfulCast, LawfulPick, LawfulTick, LawfulIllusion;
    match t.command
    case Guess(seat, guess) => GuessTurnFrame(t, p, seat, guess, s);
    case Cast(seat, req, heard) => CastTurnFrame(t, p, seat, req, heard, s);
    case Pick(seat, word) => PickFrame(t, seat, word, s);
    case InIllusion(seat, guess) => IllusionFrame(t, p, seat, guess, s);
    case NoAnswer(_, _) => RefundFrame(t, p, s);
    case GivesUp(_, _) => SameFrame(t, s);
    case Tick => TickFrame(t, s);
  }

  lemma TriedFields(s: Side, guess: Word)
    requires s.fx.illusion.Some?
    ensures var t := IllusionTried(s, guess);
            t == s.(fx := s.fx.(illusion := t.fx.illusion, energy := t.fx.energy))
  {
  }

  lemma TrierFrame(t: Turn, s: Seat)
    requires t.command.InIllusion? && t.command.side == s
    requires t.After(s) == t.Before(s).(fx := t.Before(s).fx.(illusion := t.After(s).fx.illusion, energy := t.After(s).fx.energy))
    ensures Frame(t, s)
  {
  }

  lemma IllusionFrame(t: Turn, p: Puzzle, seat: Seat, guess: Word, s: Seat)
    requires t.command == InIllusion(seat, guess) && LawfulIllusion(t, seat, guess, p)
    ensures Frame(t, s)
  {
    hide Solves, Frame, IllusionTried;
    if s == seat && t.After(s) != t.Before(s) {
      TriedFields(t.Before(s), guess);
      TrierFrame(t, s);
    } else {
      SameFrame(t, s);
    }
  }

  lemma RefundFrame(t: Turn, p: Puzzle, s: Seat)
    requires Lawful(t, p) && t.command.NoAnswer?
    ensures Frame(t, s)
  {
  }
}
