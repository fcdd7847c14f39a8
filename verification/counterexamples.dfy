/** What the duel does not promise, shown on boards of five letters: the word is CRATE, and
GRATE is guessed, which is green but for its first letter. Each side has the five rows a
duel gives it. */
module Counterexamples {
  import opened Wordle
  import opened Boards
  import opened DuelSides
  import opened DuelRules
  import opened DuelSafety
  import opened DuelHistory
  import Elo

  const CRATE: Word := "CRATE"
  const GRATE: Word := "GRATE"

  /** A side that hasn't guessed yet. */
  function NewSide(kind: Kind, energy: nat): Side {
    Side(kind, CRATE, [], 5, false, 0.0, NewSideEffects(5).(energy := energy))
  }

  function Row(): GuessRow {
    TrueRow(GRATE, Colors(GRATE, CRATE))
  }

  /** The side once it has guessed GRATE and been paid for it. */
  function AfterGrate(s: Side): Side
    requires |s.word| == 5
  {
    Paid(Guessed(s, GRATE), RecordedRow(s, GRATE))
  }

  lemma Words()
    ensures WordOk(CRATE, 5) && WordOk(GRATE, 5) && CRATE != GRATE
    ensures RowOk(Row(), CRATE)
    ensures Row().colors[0] != Green && forall i | 1 <= i < 5 :: Row().colors[i] == Green
  {
  }

  lemma NewSideOk(kind: Kind, energy: nat)
    ensures SideOk(NewSide(kind, energy), 5)
  {
    Words();
    NothingKnown(CRATE);
    hide Truthful, CoversGuesses;
  }

  lemma NewDuelOk(a: Side, b: Side, energyA: nat, energyB: nat)
    requires a == NewSide(a.kind, energyA) && b == NewSide(b.kind, energyB)
    ensures DuelOk(a, b, 5)
  {
    NewSideOk(a.kind, energyA);
    NewSideOk(b.kind, energyB);
    hide SideOk;
  }

  /** Guessing GRATE with no tricks pending. */
  lemma Grates(s: Side)
    requires SideOk(s, 5) && s.word == CRATE && s.fx.feint.None? && s.fx.falseNext.None?
    ensures var t := AfterGrate(s);
            && SideOk(t, 5) && RecordedRow(s, GRATE) == Row()
            && t == s.(guesses := s.guesses + [Row()], best := t.best, fx := t.fx)
            && t.fx.greens == LearnedGreens(s.fx.greens, Row().colors)
            && t.fx.found == LearnedFound(s.fx.greens, s.fx.found, Row())
            && t.fx.energy == s.fx.energy + Gain(s.fx.greens, s.fx.found, Row())
            && t.fx.eyes == s.fx.eyes && t.fx.destroyed == s.fx.destroyed && t.fx.shield == s.fx.shield
            && t.fx.reshape == s.fx.reshape && t.fx.feint.None? && t.fx.falseNext.None?
            && t.fx.silencedUntil == s.fx.silencedUntil
  {
    Words();
    RecordedRowOk(s, GRATE, 5);
    PaidKeepsSide(s, GRATE, 5);
    hide SideOk, Colors, LearnedGreens, LearnedFound, Gain, Elo.Closeness, Solves;
    assert RecordedRow(s, GRATE) == Row();
  }

  /** What a side that guessed GRATE first knows is what that shows. */
  lemma FirstIsExact(kind: Kind, energy: nat)
    ensures var t := AfterGrate(NewSide(kind, energy));
            ExactlyShown(t.guesses, t.fx.greens, t.fx.found, t.best)
  {
    var s := NewSide(kind, energy);
    Words();
    NewSideOk(kind, energy);
    Grates(s);
    NothingKnown(CRATE);
    ExactStep(CRATE, [], NoGreens(5), {}, 0.0, Row());
    assert [] + [Row()] == [Row()];
    hide SideOk, Colors, LearnedGreens, LearnedFound, Gain, ExactlyShown, Elo.Closeness, Row;
  }

  // ----- Mend

  lemma GrateShowsAlone()
    ensures !ShowsNothingNew([Row()], 0) && RowsOk(CRATE, [Row()]) && Without([Row()], 0) == []
  {
    Words();
    assert !ShownGreen([], 1);
    hide Colors, RowOk;
  }

  lemma OneGrate() returns (me: Side, them: Side)
    ensures DuelOk(me, them, 5) && me == AfterGrate(NewSide(Cleric, 3)) && them == NewSide(Wizard, 0)
    ensures me.word == CRATE && me.guesses == [Row()] && me.kind == Cleric && me.fx.silencedUntil == ZERO
    ensures me.fx.energy >= Cost(Mend) && |me.fx.greens| == 5
  {
    hide SideOk, AfterGrate, Row, Gain, LearnedFound, LearnedGreens;
    var s := NewSide(Cleric, 3);
    me, them := AfterGrate(s), NewSide(Wizard, 0);
    NewSideOk(Cleric, 3);
    NewSideOk(Wizard, 0);
    Grates(s);
    assert [] + [Row()] == [Row()];
  }

  /** After a Mend by the rules a side may know more than its guesses show: here its only
      guess was GRATE. */
  lemma MendForgets(now: Time) returns (me: Side, them: Side, me': Side, them': Side)
    requires now >= ZERO
    ensures DuelOk(me, them, 5) && ExactlyShown(me.guesses, me.fx.greens, me.fx.found, me.best)
    ensures var req := Request(1, 0, 0, [], []);
            && MayCast(me, them, req, now) && AbilityAt(me.kind, req.slot) == Some(Mend)
            && CastEffect(Mend, req, now, 5, Spent(me, Cost(Mend)), them, me', them')
    ensures !ExactlyShown(me'.guesses, me'.fx.greens, me'.fx.found, me'.best)
  {
    hide RowsOk, Colors, ExactlyShown, CastEffect, Without, Row, SideOk, ShowsNothingNew, EyesMended, MendedDestroyed, AfterGrate;
    me, them := OneGrate();
    FirstIsExact(Cleric, 3);
    GrateShowsAlone();
    MendExactly(CRATE, me.guesses, 0, me.fx.greens, me.fx.found, me.best);
    var paid := Spent(me, Cost(Mend));
    NoEyesMended(now, paid);
    MendEffect(Request(1, 0, 0, [], []), now, paid, them, []);
    me' := paid.(guesses := Without(me.guesses, 0), fx := paid.fx.(destroyed := MendedDestroyed(me.fx.destroyed, 0)));
    them' := WithEyes(them, []);
  }

  lemma NoEyesMended(now: Time, me: Side)
    requires |me.guesses| > 0
    ensures EyesMended([], [], 0, Without(me.guesses, 0), MendedDestroyed(me.fx.destroyed, 0), now)
  {
  }

  function EyesOnFirst(now: Time): seq<Eye> {
    [Eye(Tile(0, 0), true, now), Eye(Tile(1, 0), true, now)]
  }

  /** A side with GRATE guessed twice. */
  lemma TwoGrates() returns (me: Side)
    ensures SideOk(me, 5) && me.kind == Cleric && me.guesses == [Row(), Row()] && me.fx.destroyed == {} && me.fx.eyes == []
    ensures me.rows == 5 && !me.solved && me.fx.energy >= Cost(Mend) && me.fx.silencedUntil == ZERO
  {
    hide SideOk, AfterGrate, Row, Gain, LearnedGreens, LearnedFound;
    var s := NewSide(Cleric, 3);
    NewSideOk(Cleric, 3);
    Grates(s);
    Grates(AfterGrate(s));
    me := AfterGrate(AfterGrate(s));
    me := me.(fx := me.fx.(silencedUntil := ZERO));
    Unsilenced(AfterGrate(AfterGrate(s)));
  }

  lemma Unsilenced(s: Side)
    requires SideOk(s, 5)
    ensures SideOk(s.(fx := s.fx.(silencedUntil := ZERO)), 5)
  {
    hide RowsOk, KnowledgeOk, DestroyedOk, TricksOk, KeysOk;
  }

  /** A Wizard's eyes on both first letters. */
  lemma EyesOnGrates(me: Side, now: Time) returns (them: Side)
    requires SideOk(me, 5) && me.guesses == [Row(), Row()] && me.fx.destroyed == {} && me.fx.eyes == []
    requires me.rows == 5 && !me.solved
    ensures them == WithEyes(NewSide(Wizard, 0), EyesOnFirst(now))
    ensures DuelOk(me, them, 5)
  {
    them := WithEyes(NewSide(Wizard, 0), EyesOnFirst(now));
    NewSideOk(Wizard, 0);
    Words();
    assert EyesOk(them.fx.eyes, me.guesses, me.fx.destroyed);
    hide RowsOk, KnowledgeOk, DestroyedOk, TricksOk, KeysOk, Row, EyesOk;
  }

  lemma MendEffect(req: Request, now: Time, me: Side, them: Side, eyes: seq<Eye>)
    requires 0 <= req.row < |me.guesses|
    requires EyesMended(them.fx.eyes, eyes, req.row, Without(me.guesses, req.row), MendedDestroyed(me.fx.destroyed, req.row), now)
    ensures CastEffect(Mend, req, now, 5, me, them,
                       me.(guesses := Without(me.guesses, req.row),
                           fx := me.fx.(destroyed := MendedDestroyed(me.fx.destroyed, req.row))),
                       WithEyes(them, eyes))
  {
    hide EyesMended, MendedDestroyed, Without;
  }

  /** Mending the first of two rows can put an eye on each on the one that is left. */
  lemma MendCollides(now: Time) returns (me: Side, them: Side, me': Side, them': Side)
    requires now >= ZERO
    ensures DuelOk(me, them, 5) && EyesDistinct(them.fx.eyes)
    ensures var req := Request(1, 0, 0, [], []);
            && MayCast(me, them, req, now) && AbilityAt(me.kind, req.slot) == Some(Mend)
            && CastEffect(Mend, req, now, 5, Spent(me, Cost(Mend)), them, me', them')
    ensures !EyesDistinct(them'.fx.eyes)
  {
    hide SideOk, CastEffect, EyesMended, MendedDestroyed, Without, Row, EyesOk;
    me := TwoGrates();
    them := EyesOnGrates(me, now);
    var req := Request(1, 0, 0, [], []);
    assert Collides(EyesOnFirst(now), 0, 0, 1);
    var eyes := MendCollision(EyesOnFirst(now), 0, me.guesses, me.fx.destroyed, now, 0, 1);
    var paid := Spent(me, Cost(Mend));
    MendEffect(req, now, paid, them, eyes);
    me' := paid.(guesses := Without(me.guesses, 0), fx := paid.fx.(destroyed := MendedDestroyed(me.fx.destroyed, 0)));
    them' := WithEyes(them, eyes);
  }

  // ----- A clean slate pays again

  /** GRATE, the slate wiped, and GRATE once more pays more than CRATE is worth. */
  lemma WipePaysAgain(now: Time)
    ensures var s := NewSide(Knight, 0);
            var t := AfterGrate(s);
            var w := Wiped(t, 5);
            var u := AfterGrate(w);
            && (forall o: Side :: FateEffect(CleanSlate, now, 5, t, o, w, Wiped(o, 5)))
            && w.word == s.word
            && (t.fx.energy - s.fx.energy) + (u.fx.energy - w.fx.energy) > MostLetterEnergy(CRATE)
  {
    NewSideOk(Knight, 0);
    var t := AfterGrate(NewSide(Knight, 0));
    Grates(NewSide(Knight, 0));
    assert Wiped(t, 5) == NewSide(Knight, 0);
    GratePays();
  }

  lemma GratePays()
    ensures Gain(NoGreens(5), {}, Row()) >= 8 && MostLetterEnergy(CRATE) <= 15
  {
    Words();
    var g, greens := Row(), NoGreens(5);
    hide Colors, Row;
    assert forall i | 1 <= i < 5 :: NewGreen(greens, g.colors, i);
    assert NewGreenCount(greens, g.colors, 1) >= 0;
    assert NewGreenCount(greens, g.colors, 2) >= 1;
    assert NewGreenCount(greens, g.colors, 3) >= 2;
    assert NewGreenCount(greens, g.colors, 4) >= 3;
    assert NewGreenCount(greens, g.colors, 5) >= 4;
    assert LetterSet(CRATE) <= {'C', 'R', 'A', 'T', 'E'};
    CardinalityLe(LetterSet(CRATE), {'C', 'R', 'A', 'T', 'E'});
  }

  // ----- A reshape to a word guessed meanwhile

  /** GRATE is offered while nobody guessed it, then guessed, then picked. */
  datatype Stale = Stale(a: Side, b: Side, b1: Side, a2: Side, b2: Side)

  lemma OfferStands()
    ensures var a, b := NewSide(Wizard, 12), NewSide(Wizard, 0);
            var a1 := a.(fx := a.fx.(reshape := [GRATE]));
            && DuelOk(a, b, 5) && Offerable(b, [GRATE], 5) && DuelOk(a1, b, 5) && DuelOk(b, a1, 5)
  {
    var a, b := NewSide(Wizard, 12), NewSide(Wizard, 0);
    Words();
    NewDuelOk(a, b, 12, 0);
    DuelOkSwap(a.(fx := a.fx.(reshape := [GRATE])), b, 5);
    hide RowsOk, KnowledgeOk, DestroyedOk, KeysOk, EyesOk;
  }

  /** The guess pays and disturbs nobody: Wizards without eyes. */
  lemma GrateQuiet(a1: Side, now: Time)
    requires a1.fx.eyes == [] && SideOk(NewSide(Wizard, 0), 5)
    ensures GuessEffect(NewSide(Wizard, 0), a1, GRATE, now, AfterGrate(NewSide(Wizard, 0)), a1)
  {
    var b := NewSide(Wizard, 0);
    Grates(b);
    assert WithEyes(AfterGrate(b), []) == AfterGrate(b) && WithEyes(a1, []) == a1;
    hide SideOk, Gain, LearnedGreens, LearnedFound, Elo.Closeness, Row;
  }

  lemma GrateGuessed(a1: Side, now: Time)
    requires a1.fx.eyes == [] && DuelOk(NewSide(Wizard, 0), a1, 5)
    ensures var b := NewSide(Wizard, 0);
            GuessEffect(b, a1, GRATE, now, AfterGrate(b), a1) && DuelOk(AfterGrate(b), a1, 5)
  {
    hide SideOk, GuessEffect, Row, Gain, LearnedGreens, LearnedFound, AfterGrate, EyesOk;
    var b := NewSide(Wizard, 0);
    NewSideOk(Wizard, 0);
    Words();
    Grates(b);
    GrateQuiet(a1, now);
    GuessKeepsDuel(b, a1, GRATE, now, AfterGrate(b), a1, 5);
  }

  /** A side with one GRATE, rescored against GRATE. */
  lemma GrateRescored(b1: Side) returns (b2: Side)
    requires SideOk(b1, 5) && b1.guesses == [Row()]
    ensures Rescored(b1, b2, GRATE) && b2.fx.eyes == b1.fx.eyes && |b2.fx.greens| == 5
    ensures |b2.guesses| == 1 && Solves(b2.guesses[0].colors) && b2.guesses[0].word == b2.word && b2.solved == b1.solved
  {
    Words();
    var row := TrueRow(GRATE, Colors(GRATE, GRATE));
    NothingKnown(GRATE);
    SolvesExactly(GRATE, GRATE);
    assert RowOk(row, GRATE);
    ExactStep(GRATE, [], NoGreens(5), {}, 0.0, row);
    var c := Elo.Closeness(row.colors);
    b2 := b1.(word := GRATE, guesses := [row], best := if 0.0 < c then c else 0.0,
              fx := b1.fx.(greens := LearnedGreens(NoGreens(5), row.colors), found := LearnedFound(NoGreens(5), {}, row)));
    assert [] + [row] == [row];
    assert RescoredRows(b1.guesses, GRATE) == [row];
    hide SideOk, Colors, LearnedGreens, LearnedFound, Gain, ExactlyShown, Elo.Closeness, RowOk;
  }

  /** The offer is by the rules, the guess and the pick too, and the duel stays consistent;
      yet b's board ends up all green, on b's own word, with b still playing. */
  lemma StaleReshape(now: Time) returns (s: Stale)
    ensures var a1 := s.a.(fx := s.a.fx.(reshape := [GRATE]));
            && DuelOk(s.a, s.b, 5) && s.a.kind == Wizard && s.a.fx.energy >= Cost(ReshapeReality) && !s.b.fx.shield
            && Offerable(s.b, [GRATE], 5)
            && GuessEffect(s.b, a1, GRATE, now, s.b1, a1) && s.b1.word != GRATE && DuelOk(a1, s.b1, 5)
            && ReshapeEffect(GRATE, now, a1, s.b1, s.a2, s.b2) && DuelOk(s.a2, s.b2, 5)
    ensures |s.b2.guesses| == 1 && Solves(s.b2.guesses[0].colors) && s.b2.guesses[0].word == s.b2.word && !s.b2.solved
  {
    hide SideOk, AfterGrate, Row, GuessEffect, Rescored, EyesOk, Gain, LearnedGreens, LearnedFound;
    var a, b := NewSide(Wizard, 12), NewSide(Wizard, 0);
    var a1 := a.(fx := a.fx.(reshape := [GRATE]));
    OfferStands();
    GrateGuessed(a1, now);
    NewSideOk(Wizard, 0);
    Grates(b);
    var b1 := AfterGrate(b);
    assert [] + [Row()] == [Row()];
    DuelOkSwap(b1, a1, 5);
    var b2 := GrateRescored(b1);
    var a2 := ReshapePaid(a1);
    Words();
    ReshapeStands(a1, b1, a2, b2, now);
    s := Stale(a, b, b1, a2, b2);
  }

  lemma ReshapeStands(a1: Side, b1: Side, a2: Side, b2: Side, now: Time)
    requires DuelOk(a1, b1, 5) && a1.fx.eyes == [] && a1.fx.energy >= Cost(ReshapeReality) && !b1.fx.shield
    requires a2 == ReshapePaid(a1) && Rescored(b1, b2, GRATE) && b2.fx.eyes == b1.fx.eyes && |b2.fx.greens| == 5
    ensures ReshapeEffect(GRATE, now, a1, b1, a2, b2) && DuelOk(a2, b2, 5)
  {
    Words();
    assert EyesAimed(EyeLost, [], [], b2.guesses, b2.fx.destroyed, now);
    assert WithEyes(a2, []) == a2;
    assert DuelOk(a2, b1, 5) by {
      hide RowsOk, KnowledgeOk, DestroyedOk, TricksOk, KeysOk, EyesOk, Rescored;
      assert TricksOk(a2.fx.feint, a2.fx.falseNext, [], a2.fx.illusion, 5) by {
        Tricks(a1.fx.feint, a1.fx.falseNext, a1.fx.reshape, a1.fx.illusion);
      }
    }
    hide SideOk, EyesOk, Rescored;
    ReshapeKeeps(a2, b1, a2, b2, GRATE, now, 5);
  }

  lemma Tricks(feint: Option<seq<Color>>, falseNext: Option<seq<Color>>, reshape: seq<Word>, illusion: Option<Illusion>)
    requires TricksOk(feint, falseNext, reshape, illusion, 5)
    ensures TricksOk(feint, falseNext, [], illusion, 5)
  {
  }

  // ----- A new word that was guessed before

  lemma GrateFree()
    ensures var a := NewSide(Wizard, 0).(word := GRATE); SideOk(a, 5) && Rescored(a, a, GRATE)
  {
    Words();
    NothingKnown(GRATE);
    hide Truthful, CoversGuesses;
  }

  lemma ClericsGrate() returns (b: Side)
    ensures SideOk(b, 5) && b.kind == Cleric && b.word == CRATE && b.guesses == [Row()] && b.fx.eyes == [] && !b.solved
    ensures b.rows == 5 && b.fx.energy >= Cost(DivineIntervention) && b.fx.silencedUntil == ZERO
  {
    hide SideOk, AfterGrate, Row, Gain, LearnedGreens, LearnedFound;
    var s := NewSide(Cleric, 10);
    NewSideOk(Cleric, 10);
    Grates(s);
    b := AfterGrate(s);
    assert [] + [Row()] == [Row()];
  }

  /** a is after GRATE, b after CRATE and has guessed GRATE. b begs the gods, every word they
      try is taken, and they leave a's own: b's board is all green with b still playing. */
  lemma StaleNewWord(now: Time) returns (a: Side, b: Side, a': Side, b': Side)
    requires now >= ZERO
    ensures DuelOk(b, a, 5) && a.word == GRATE && b.word == CRATE && HasGuessed(b, GRATE)
    ensures var req := Request(4, 0, 0, [], []);
            && MayCast(b, a, req, now) && AbilityAt(b.kind, req.slot) == Some(DivineIntervention)
            && FateEffect(NewWord, now, 5, Spent(b, Cost(DivineIntervention)), a, b', a')
            && CastEffect(DivineIntervention, req, now, 5, Spent(b, Cost(DivineIntervention)), a, b', a')
    ensures DuelOk(b', a', 5) && b'.word == GRATE && ShowsSolve(b') && !b'.solved
  {
    hide SideOk, Row, Rescored, EyesOk, Solves, FateEffect;
    a := NewSide(Wizard, 0).(word := GRATE);
    GrateFree();
    b := ClericsGrate();
    NoEyesDuel(a, b);
    var paid := Spent(b, Cost(DivineIntervention));
    PaidUp(b, a, Cost(DivineIntervention));
    b' := GrateRescored(paid);
    a' := a;
    WordSetTo(paid, b', GRATE);
    NewWordStands(now, paid, a, b');
    FateKeeps(NewWord, now, 5, paid, a, b', a', 5);
    assert b.guesses[0].word == GRATE by {
      GrateInRow();
    }
  }

  lemma GrateInRow()
    ensures Row().word == GRATE
  {
  }

  lemma NoEyesDuel(a: Side, b: Side)
    requires SideOk(a, 5) && SideOk(b, 5) && a.fx.eyes == [] && b.fx.eyes == []
    requires !a.solved && !b.solved && |a.guesses| < a.rows && |b.guesses| < b.rows
    ensures DuelOk(b, a, 5)
  {
    hide SideOk;
  }

  lemma PaidUp(me: Side, them: Side, cost: nat)
    requires DuelOk(me, them, 5) && me.fx.energy >= cost
    ensures DuelOk(Spent(me, cost), them, 5)
  {
    hide RowsOk, KnowledgeOk, DestroyedOk, TricksOk, KeysOk, EyesOk;
  }

  lemma NewWordStands(now: Time, me: Side, them: Side, me': Side)
    requires |me.word| == 5 && them.word == GRATE && me.fx.eyes == [] && them.fx.eyes == [] && me'.fx.eyes == []
    requires Rescored(me, me', GRATE) && Rescored(them, them, GRATE)
    ensures FateEffect(NewWord, now, 5, me, them, me', them)
  {
    Words();
    assert me'.word == GRATE;
    assert EyesAimed(EyeLost, [], [], them.guesses, them.fx.destroyed, now) && EyesAimed(EyeLost, [], [], me'.guesses, me'.fx.destroyed, now);
    hide Rescored, EyesAimed, Untaken;
  }
}
