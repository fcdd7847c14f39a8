/** Every command keeps the duel invariant: board, colors, knowledge, destroyed letters,
eyes, pending tricks and rows stay consistent, energy stays non-negative, and nobody
but the guesser runs out of rows. */
module DuelSafety {
  import opened Wordle
  import opened Boards
  import opened DuelSides
  import opened DuelRules
  import Elo

  lemma DuelOkSwap(a: Side, b: Side, n: nat)
    ensures DuelOk(a, b, n) <==> DuelOk(b, a, n)
  {
    hide SideOk, Watches;
  }

  /** A side that could still guess still can. */
  predicate KeepsRows(from: Side, to: Side) {
    !from.Out() ==> !to.Out()
  }

  predicate KeepsApart(from: Side, to: Side) {
    EyesDistinct(from.fx.eyes) ==> EyesDistinct(to.fx.eyes)
  }

  // ----- Eyes against a changing board

  lemma WatchesAfterAim(why: Why, watcher: Side, watcher': Side, target: Side, now: Time)
    requires EyesAimed(why, watcher.fx.eyes, watcher'.fx.eyes, target.guesses, target.fx.destroyed, now)
    requires why == EyeLost || Watches(watcher, target)
    ensures Watches(watcher', target) && KeepsApart(watcher, watcher')
  {
    AimingKeepsEyes(why, watcher.fx.eyes, watcher'.fx.eyes, target.guesses, target.fx.destroyed, now);
  }

  lemma UnshieldedKeeps(me: Side, them: Side, n: nat)
    requires DuelOk(me, them, n)
    ensures DuelOk(me, Unshielded(them), n)
    ensures KeepsRows(them, Unshielded(them)) && KeepsApart(them, Unshielded(them))
  {
    hide RowsOk, KnowledgeOk, DestroyedOk, TricksOk, KeysOk, EyesOk;
  }

  lemma SlashKeeps(req: Request, now: Time, maxGuesses: int, me: Side, them: Side, me': Side, them': Side, n: nat)
    requires DuelOk(me, them, n) && OnBoard(them.guesses, Target(req))
    requires CastEffect(Slash, req, now, maxGuesses, me, them, me', them')
    ensures DuelOk(me', them', n) && KeepsApart(me, me') && KeepsApart(them, them')
    ensures KeepsRows(me, me') && KeepsRows(them, them')
  {
    hide RowsOk, KnowledgeOk, TricksOk, KeysOk, EyesOk, EyesDistinct, EyesAimed;
    if them.fx.shield {
      UnshieldedKeeps(me, them, n);
    } else {
      WatchesAfterAim(EyeLost, me, me', them', now);
    }
  }

  lemma NewEyeKeeps(eyes: seq<Eye>, e: Eye, guesses: seq<GuessRow>, destroyed: set<Tile>, now: Time, from: Eye)
    requires EyesOk(eyes, guesses, destroyed) && Aimed(eyes, guesses, destroyed, |eyes|, now, from, e)
    ensures EyesOk(eyes + [e], guesses, destroyed)
    ensures EyesDistinct(eyes) ==> EyesDistinct(eyes + [e])
  {
  }

  lemma SeeingEyeKeeps(req: Request, now: Time, maxGuesses: int, me: Side, them: Side, me': Side, them': Side, n: nat)
    requires DuelOk(me, them, n) && CastEffect(SeeingEye, req, now, maxGuesses, me, them, me', them')
    ensures DuelOk(me', them', n) && KeepsApart(me, me') && KeepsApart(them, them')
    ensures KeepsRows(me, me') && KeepsRows(them, them')
  {
    hide RowsOk, KnowledgeOk, DestroyedOk, TricksOk, KeysOk, EyesOk, EyesDistinct, Aimed;
    if them.fx.shield {
      UnshieldedKeeps(me, them, n);
    } else {
      var k := |me.fx.eyes|;
      assert me'.fx.eyes == me.fx.eyes + [me'.fx.eyes[k]];
      NewEyeKeeps(me.fx.eyes, me'.fx.eyes[k], them.guesses, them.fx.destroyed, now, Eye(Tile(0, 0), false, ZERO));
    }
  }

  lemma MendKeepsSide(me: Side, me': Side, row: nat, n: nat)
    requires SideOk(me, n) && row < |me.guesses|
    requires me' == me.(guesses := Without(me.guesses, row),
                        fx := me.fx.(destroyed := MendedDestroyed(me.fx.destroyed, row)))
    ensures SideOk(me', n)
  {
    hide TricksOk, KeysOk, RowOk, Covered, Truthful;
    MendKeepsDestroyed(me.guesses, me.fx.destroyed, row);
    forall r | 0 <= r < |me'.guesses| ensures me'.guesses[r] == me.guesses[if r < row then r else r + 1] {
    }
  }

  lemma MendKeeps(req: Request, now: Time, maxGuesses: int, me: Side, them: Side, me': Side, them': Side, n: nat)
    requires DuelOk(me, them, n) && CastEffect(Mend, req, now, maxGuesses, me, them, me', them')
    ensures DuelOk(me', them', n)
    ensures KeepsRows(me, me') && KeepsRows(them, them') && KeepsApart(me, me')
    ensures MayCollide(them.fx.eyes, req.row) || KeepsApart(them, them')
  {
    hide RowsOk, KnowledgeOk, DestroyedOk, TricksOk, KeysOk, EyesOk, EyesDistinct, EyesMended, MayCollide, MendedDestroyed;
    MendKeepsSide(me, me', req.row, n);
    MendKeepsEyes(them.fx.eyes, them'.fx.eyes, req.row, me.guesses, me.fx.destroyed, now);
    if !MayCollide(them.fx.eyes, req.row) && EyesDistinct(them.fx.eyes) {
      MendKeepsDistinct(them.fx.eyes, them'.fx.eyes, req.row, me.guesses, me.fx.destroyed, now);
    }
  }

  // ----- New words

  /** Knowledge that is exactly what the guesses show is knowledge. */
  lemma ExactIsKnowledge(word: Word, guesses: seq<GuessRow>, greens: seq<bool>, found: set<char>, best: real)
    requires RowsOk(word, guesses) && |greens| == |word| && ExactlyShown(guesses, greens, found, best)
    ensures KnowledgeOk(word, guesses, greens, found, best)
  {
    MaxClosenessBounds(guesses);
    forall i | 0 <= i < |word| && greens[i] ensures word[i] in found {
      var r :| 0 <= r < |guesses| && i < |guesses[r].colors| && guesses[r].colors[i] == Green;
      assert ShownIn(guesses[r], word[i]) by {
        assert RowOk(guesses[r], word);
        assert guesses[r].word[i] == word[i];
      }
    }
    forall l | l in found ensures l in word {
      var r :| 0 <= r < |guesses| && ShownIn(guesses[r], l);
      var i: nat :| i < |guesses[r].colors| && i < |guesses[r].word| && guesses[r].colors[i] != Grey && guesses[r].word[i] == l;
      assert RowOk(guesses[r], word);
      ColoredLetterInWord(guesses[r].word, word, i);
    }
    forall r | 0 <= r < |guesses| ensures Covered(guesses[r], greens, found, best) {
      ExactCovers(word, guesses, greens, found, best, r);
    }
  }

  lemma ExactCovers(word: Word, guesses: seq<GuessRow>, greens: seq<bool>, found: set<char>, best: real, r: nat)
    requires RowsOk(word, guesses) && |greens| == |word| && ExactlyShown(guesses, greens, found, best) && r < |guesses|
    requires Elo.Closeness(guesses[r].colors) <= MaxCloseness(guesses)
    ensures Covered(guesses[r], greens, found, best)
  {
    var g := guesses[r];
    assert RowOk(g, word);
    RowLengths(g, word);
    hide RowOk, RowsOk;
    forall i | 0 <= i < |greens| && (g.colors[i] == Green || g.colors[i] == Yellow) ensures g.word[i] in found {
      assert ShownIn(g, g.word[i]);
    }
    forall i | 0 <= i < |greens| && g.colors[i] == Green ensures greens[i] {
      assert ShownGreen(guesses, i);
    }
  }

  lemma RescoredKeepsSide(s: Side, s': Side, w: Word, n: nat)
    requires SideOk(s, n) && WordOk(w, n) && Rescored(s, s', w) && |s'.fx.greens| == n
    ensures SideOk(s', n)
    ensures Playing(s) ==> Playing(s')
    ensures s'.Out() <==> s.Out()
  {
    RescoredOk(s.guesses, w);
    ExactIsKnowledge(w, s'.guesses, s'.fx.greens, s'.fx.found, s'.best);
    hide RowsOk, KnowledgeOk, TricksOk, KeysOk, ExactlyShown, Colors;
    assert DestroyedOk(s'.guesses, s'.fx.destroyed) by {
      forall r | 0 <= r < |s.guesses| ensures |s'.guesses[r].colors| == |s.guesses[r].colors| {
        RowShape(s, r);
      }
    }
  }

  lemma RowShape(s: Side, r: nat)
    requires RowsOk(s.word, s.guesses) && r < |s.guesses|
    ensures |s.guesses[r].colors| == |s.word| == |s.guesses[r].word|
  {
    assert RowOk(s.guesses[r], s.word);
  }

  lemma ReshapeKeeps(me: Side, them: Side, me': Side, them': Side, w: Word, now: Time, n: nat)
    requires DuelOk(me, them, n) && WordOk(w, n)
    requires Rescored(them, them', w) && |them'.fx.greens| == n && them'.fx.eyes == them.fx.eyes
    requires me' == WithEyes(me, me'.fx.eyes)
    requires EyesAimed(EyeLost, me.fx.eyes, me'.fx.eyes, them'.guesses, them'.fx.destroyed, now)
    ensures DuelOk(me', them', n)
    ensures KeepsApart(me, me') && KeepsRows(them, them')
  {
    RescoredKeepsSide(them, them', w, n);
    WatchesAfterAim(EyeLost, me, me', them', now);
    hide RowsOk, KnowledgeOk, DestroyedOk, TricksOk, KeysOk, EyesOk, EyesDistinct, ExactlyShown, RescoredRows, EyesAimed;
  }

  lemma NewWordKeeps(now: Time, maxGuesses: int, a: Side, b: Side, a': Side, b': Side, n: nat)
    requires DuelOk(a, b, n) && FateEffect(NewWord, now, maxGuesses, a, b, a', b')
    requires |a'.fx.greens| == n == |b'.fx.greens|
    ensures DuelOk(a', b', n)
    ensures KeepsRows(a, a') && KeepsRows(b, b') && KeepsApart(a, a') && KeepsApart(b, b')
  {
    assert |a.word| == n;
    hide SideOk, EyesDistinct, Rescored, EyesAimed, Watches, Playing;
    RescoredKeepsSide(a, a', a'.word, n);
    RescoredKeepsSide(b, b', a'.word, n);
    WatchesAfterAim(EyeLost, a, a', b', now);
    WatchesAfterAim(EyeLost, b, b', a', now);
  }

  lemma WipedKeepsSide(s: Side, maxGuesses: int, n: nat)
    requires SideOk(s, n)
    ensures SideOk(Wiped(s, maxGuesses), n)
  {
    NothingKnown(s.word);
  }

  /** Whatever the gods pick. */
  lemma FateKeeps(fate: Fate, now: Time, maxGuesses: int, a: Side, b: Side, a': Side, b': Side, n: nat)
    requires DuelOk(a, b, n) && FateEffect(fate, now, maxGuesses, a, b, a', b') && maxGuesses > 0
    requires |a'.fx.greens| == n == |b'.fx.greens|
    ensures DuelOk(a', b', n)
    ensures KeepsRows(a, a') && KeepsRows(b, b') && KeepsApart(a, a') && KeepsApart(b, b')
  {
    match fate
    case NewWord => NewWordKeeps(now, maxGuesses, a, b, a', b', n);
    case CleanSlate =>
      WipedKeepsSide(a, maxGuesses, n);
      WipedKeepsSide(b, maxGuesses, n);
      hide SideOk;
    case _ =>
      hide RowsOk, KnowledgeOk, DestroyedOk, TricksOk, KeysOk, EyesOk, EyesDistinct;
  }

  predicate Plain(id: Ability) {
    match id
    case ShieldsUp => true case Determination => true case PommelStrike => true case Cripple => true
    case Scry => true case MagicMissile => true case Pickpocket => true case Cheat => true
    case MinorPrayer => true case MajorPrayer => true
    case _ => false
  }

  /** The abilities that change only shields, rows, clocks and energy. */
  lemma PlainCastKeeps(id: Ability, req: Request, now: Time, maxGuesses: int, me: Side, them: Side, me': Side, them': Side, n: nat)
    requires DuelOk(me, them, n) && CanCast(id, me, them, req) && Plain(id)
    requires CastEffect(id, req, now, maxGuesses, me, them, me', them')
    ensures DuelOk(me', them', n)
    ensures KeepsRows(me, me') && KeepsRows(them, them') && KeepsApart(me, me') && KeepsApart(them, them')
  {
    hide RowsOk, KnowledgeOk, DestroyedOk, TricksOk, KeysOk, EyesOk, EyesDistinct;
    hide EyesAimed, EyesMended, FateEffect, Permutation, Aimed, ValidPattern;
  }

  lemma FakeCastKeeps(id: Ability, req: Request, now: Time, maxGuesses: int, me: Side, them: Side, me': Side, them': Side, n: nat)
    requires DuelOk(me, them, n) && CanCast(id, me, them, req)
    requires id.Feint? || id.UnderTheirNose?
    requires CastEffect(id, req, now, maxGuesses, me, them, me', them')
    ensures DuelOk(me', them', n)
    ensures KeepsRows(me, me') && KeepsRows(them, them') && KeepsApart(me, me') && KeepsApart(them, them')
  {
    hide RowsOk, KnowledgeOk, DestroyedOk, KeysOk, EyesOk, EyesDistinct;
    hide EyesAimed, EyesMended, FateEffect, Permutation, Aimed, ValidPattern;
  }

  lemma IllusionCastKeeps(req: Request, now: Time, maxGuesses: int, me: Side, them: Side, me': Side, them': Side, n: nat)
    requires DuelOk(me, them, n) && CastEffect(CastIllusion, req, now, maxGuesses, me, them, me', them')
    ensures DuelOk(me', them', n)
    ensures KeepsRows(me, me') && KeepsRows(them, them') && KeepsApart(me, me') && KeepsApart(them, them')
  {
    hide RowsOk, KnowledgeOk, DestroyedOk, KeysOk, EyesOk, EyesDistinct, PatternOk, WordOk;
    hide EyesAimed, EyesMended, FateEffect, Permutation, Aimed;
  }

  lemma ConfuseCastKeeps(req: Request, now: Time, maxGuesses: int, me: Side, them: Side, me': Side, them': Side, n: nat)
    requires DuelOk(me, them, n) && CastEffect(Confuse, req, now, maxGuesses, me, them, me', them')
    ensures DuelOk(me', them', n)
    ensures KeepsRows(me, me') && KeepsRows(them, them') && KeepsApart(me, me') && KeepsApart(them, them')
  {
    hide RowsOk, KnowledgeOk, DestroyedOk, TricksOk, EyesOk, EyesDistinct;
    hide EyesAimed, EyesMended, FateEffect, Permutation, Aimed;
  }

  lemma PurifyKeeps(req: Request, now: Time, maxGuesses: int, me: Side, them: Side, me': Side, them': Side, n: nat)
    requires DuelOk(me, them, n) && CastEffect(Purify, req, now, maxGuesses, me, them, me', them')
    ensures DuelOk(me', them', n)
    ensures KeepsRows(me, me') && KeepsRows(them, them') && KeepsApart(me, me') && KeepsApart(them, them')
  {
    assert EyesOk([], me'.guesses, me'.fx.destroyed);
    hide RowsOk, KnowledgeOk, DestroyedOk, EyesOk, EyesAimed, EyesMended, FateEffect, Permutation, Aimed;
  }

  lemma InterventionKeeps(req: Request, now: Time, maxGuesses: int, me: Side, them: Side, me': Side, them': Side, n: nat)
    requires DuelOk(me, them, n) && CastEffect(DivineIntervention, req, now, maxGuesses, me, them, me', them')
    requires maxGuesses > 0 && |me'.fx.greens| == n == |them'.fx.greens|
    ensures DuelOk(me', them', n)
    ensures KeepsRows(me, me') && KeepsRows(them, them') && KeepsApart(me, me') && KeepsApart(them, them')
  {
    var fate :| FateEffect(fate, now, maxGuesses, me, them, me', them');
    FateKeeps(fate, now, maxGuesses, me, them, me', them', n);
  }

  /** Every ability, cast by the rules, keeps the duel consistent; nobody runs out of
      rows; and eyes stay on different letters unless Mend lets two collide. */
  lemma CastKeepsDuel(id: Ability, req: Request, now: Time, maxGuesses: int, me: Side, them: Side, me': Side, them': Side, n: nat)
    requires DuelOk(me, them, n) && CanCast(id, me, them, req) && maxGuesses > 0
    requires CastEffect(id, req, now, maxGuesses, me, them, me', them')
    requires |me'.fx.greens| == n == |them'.fx.greens|
    ensures DuelOk(me', them', n)
    ensures KeepsRows(me, me') && KeepsRows(them, them') && KeepsApart(me, me')
    ensures (id == Mend && MayCollide(them.fx.eyes, req.row)) || KeepsApart(them, them')
  {
    hide DuelOk, KeepsRows, KeepsApart, MayCollide, EyesAimed, EyesMended, FateEffect, Aimed, MendedDestroyed;
    match id
    case Slash => SlashKeeps(req, now, maxGuesses, me, them, me', them', n);
    case SeeingEye => SeeingEyeKeeps(req, now, maxGuesses, me, them, me', them', n);
    case Mend => MendKeeps(req, now, maxGuesses, me, them, me', them', n);
    case DivineIntervention => InterventionKeeps(req, now, maxGuesses, me, them, me', them', n);
    case Purify => PurifyKeeps(req, now, maxGuesses, me, them, me', them', n);
    case _ =>
      if Plain(id) {
        PlainCastKeeps(id, req, now, maxGuesses, me, them, me', them', n);
      } else if id.Feint? || id.UnderTheirNose? {
        FakeCastKeeps(id, req, now, maxGuesses, me, them, me', them', n);
      } else if id.CastIllusion? {
        IllusionCastKeeps(req, now, maxGuesses, me, them, me', them', n);
      } else if id.Confuse? {
        ConfuseCastKeeps(req, now, maxGuesses, me, them, me', them', n);
      }
  }

  // ----- Guessing

  lemma RecordedRowOk(me: Side, up: Word, n: nat)
    requires SideOk(me, n) && WordOk(up, n)
    ensures var row := RecordedRow(me, up);
            && RowOk(row, me.word) && row.word == up && row.colors == Colors(up, me.word)
            && (Solves(row.colors) <==> up == me.word)
            && (Solves(row.seen) <==> up == me.word)
            && (Solves(row.shown) <==> up == me.word)
  {
    hide RowsOk, KnowledgeOk, DestroyedOk, KeysOk, Letters, Colors;
    FakesNeverHideASolve(RecordedRow(me, up), me.word);
  }

  lemma GuessedShape(me: Side, up: Word, n: nat)
    requires SideOk(me, n) && WordOk(up, n)
    ensures var g, row := Guessed(me, up), RecordedRow(me, up);
            && g.word == me.word && g.kind == me.kind && g.rows == me.rows && g.guesses == me.guesses + [row]
            && g.fx.greens == me.fx.greens && g.fx.found == me.fx.found && g.fx.eyes == me.fx.eyes
            && (g.solved <==> me.solved || up == me.word)
  {
    RecordedRowOk(me, up, n);
    hide SideOk, RecordedRow, Elo.Closeness;
  }

  lemma KeysOfSide(s: Side, n: nat)
    requires SideOk(s, n)
    ensures KeysOk(s.fx.keymap, s.fx.scrambledGuesses) && WordOk(s.word, n)
  {
  }

  lemma AppendKeepsBoard(word: Word, guesses: seq<GuessRow>, destroyed: set<Tile>, eyes: seq<Eye>, row: GuessRow)
    requires RowsOk(word, guesses) && RowOk(row, word) && DestroyedOk(guesses, destroyed) && EyesOk(eyes, guesses, destroyed)
    ensures RowsOk(word, guesses + [row]) && DestroyedOk(guesses + [row], destroyed)
    ensures EyesOk(eyes, guesses + [row], destroyed)
  {
    hide RowOk;
  }

  /** The guesser's side after a guess that wasn't a solve. */
  lemma PaidKeepsSide(me: Side, up: Word, n: nat)
    requires SideOk(me, n) && WordOk(up, n)
    ensures SideOk(Paid(Guessed(me, up), RecordedRow(me, up)), n)
  {
    var row := RecordedRow(me, up);
    RecordedRowOk(me, up, n);
    AppendKeepsBoard(me.word, me.guesses, me.fx.destroyed, [], row);
    LearnKeepsKnowledge(me.word, me.guesses, me.fx.greens, me.fx.found, me.best, row);
    hide RowsOk, RowOk, CoversGuesses, Truthful, DestroyedOk, Letters, RecordedRow, LearnedGreens, LearnedFound, Permutation, Elo.Closeness;
  }

  lemma ProvokedKeeps(kind: Kind, them: Side, them': Side, now: Time, n: nat)
    requires SideOk(them, n) && Provoked(kind, them, them', now)
    ensures SideOk(them', n)
    ensures them' == them.(fx := them'.fx) && them'.fx.destroyed == them.fx.destroyed && them'.fx.eyes == them.fx.eyes
  {
    hide RowsOk, KnowledgeOk, DestroyedOk, TricksOk, Permutation;
    if kind == Rogue && !them.fx.shield {
      TurnedOk(them.fx.keymap, them.fx.scrambledGuesses, them'.fx.keymap);
    }
  }

  lemma ProvokedByWizard(s: Side, now: Time)
    ensures Provoked(Wizard, s, s, now)
  {
  }

  lemma EyesBack(s: Side, eyes: seq<Eye>)
    ensures WithEyes(WithEyes(s, eyes), s.fx.eyes) == s
  {
  }

  lemma TurnedOk(from: Option<seq<char>>, left: int, to: Option<seq<char>>)
    requires KeysOk(from, left) && KeysTurned(from, to)
    ensures KeysOk(to, SCRAMBLE_GUESSES)
  {
    AlphabetPermutation();
    var keys := if from.Some? then from.value else Alphabet();
    var i: nat, j: nat :| i < 26 && j < 26 && i != j && to.value == Swapped(keys, i, j);
    SwapKeepsPermutation(keys, i, j);
  }

  /** A guess that doesn't end the duel keeps it consistent. */
  lemma GuessKeepsDuel(me: Side, them: Side, up: Word, now: Time, me': Side, them': Side, n: nat)
    requires DuelOk(me, them, n) && WordOk(up, n) && !me.Out() && up != me.word
    requires GuessEffect(me, them, up, now, me', them')
    requires !(me'.Out() && them.Out())
    ensures DuelOk(me', them', n)
    ensures KeepsRows(them, them') && KeepsApart(me, me') && KeepsApart(them, them')
  {
    var row := RecordedRow(me, up);
    RecordedRowOk(me, up, n);
    PaidKeepsSide(me, up, n);
    AppendKeepsBoard(me.word, me.guesses, me.fx.destroyed, them.fx.eyes, row);
    assert me'.guesses == me.guesses + [row];
    var provoked := WithEyes(them', them.fx.eyes);
    if FindsGreen(Guessed(me, up), row) {
      ProvokedKeeps(me.kind, them, provoked, now, n);
    }
    GuessKeepsEyes(me, them, up, now, me', them');
    hide RowsOk, RowOk, KnowledgeOk, DestroyedOk, TricksOk, KeysOk, EyesOk, EyesDistinct, EyesAimed, RecordedRow, Provoked, Letters, FindsGreen;
  }

  lemma GuessKeepsEyes(me: Side, them: Side, up: Word, now: Time, me': Side, them': Side)
    requires GuessEffect(me, them, up, now, me', them')
    requires Watches(me, them) && EyesOk(them.fx.eyes, me'.guesses, me'.fx.destroyed)
    ensures EyesOk(me'.fx.eyes, them.guesses, them.fx.destroyed) && KeepsApart(me, me')
    ensures EyesOk(them'.fx.eyes, me'.guesses, me'.fx.destroyed) && KeepsApart(them, them')
  {
    hide EyesOk, EyesDistinct, EyesAimed, RecordedRow, Provoked, FindsGreen, LearnedFound, LearnedGreens, Elo.Closeness;
    if me'.fx.eyes != me.fx.eyes {
      AimingKeeps(EyeAll, me.fx.eyes, me'.fx.eyes, them.guesses, them.fx.destroyed, now);
    }
    AimingKeeps(EyeIdle, them.fx.eyes, them'.fx.eyes, me'.guesses, me'.fx.destroyed, now);
  }

  lemma AimingKeeps(why: Why, from: seq<Eye>, to: seq<Eye>, guesses: seq<GuessRow>, destroyed: set<Tile>, now: Time)
    requires EyesAimed(why, from, to, guesses, destroyed, now) && EyesOk(from, guesses, destroyed)
    ensures EyesOk(to, guesses, destroyed)
    ensures EyesDistinct(from) ==> EyesDistinct(to)
  {
    AimingKeepsEyes(why, from, to, guesses, destroyed, now);
  }

  // ----- Time

  lemma TickedKeepsSide(s: Side, gained: nat, now: Time, eyes: seq<Eye>, n: nat)
    requires SideOk(s, n)
    ensures var t := WithEyes(Ticked(s, gained, now), eyes);
            && SideOk(t, n) && (Playing(s) ==> Playing(t)) && KeepsRows(s, t)
            && t.guesses == s.guesses && t.fx.destroyed == s.fx.destroyed && (t.Out() ==> s.Out())
  {
    hide RowsOk, KnowledgeOk, DestroyedOk, TricksOk, KeysOk, DueCount, Flying;
  }

  /** The clock keeps the duel consistent, and takes nobody's last row. */
  lemma TickKeepsDuel(a: Side, b: Side, gained: nat, now: Time, a': Side, b': Side, n: nat)
    requires DuelOk(a, b, n)
    requires a' == WithEyes(Ticked(a, gained, now), a'.fx.eyes)
    requires b' == WithEyes(Ticked(b, gained, now), b'.fx.eyes)
    requires EyesAimed(EyeDue, a.fx.eyes, a'.fx.eyes, b.guesses, b.fx.destroyed, now)
    requires EyesAimed(EyeDue, b.fx.eyes, b'.fx.eyes, a.guesses, a.fx.destroyed, now)
    ensures DuelOk(a', b', n)
    ensures KeepsRows(a, a') && KeepsRows(b, b') && KeepsApart(a, a') && KeepsApart(b, b')
  {
    TickedKeepsSide(a, gained, now, a'.fx.eyes, n);
    TickedKeepsSide(b, gained, now, b'.fx.eyes, n);
    AimingKeeps(EyeDue, a.fx.eyes, a'.fx.eyes, b.guesses, b.fx.destroyed, now);
    AimingKeeps(EyeDue, b.fx.eyes, b'.fx.eyes, a.guesses, a.fx.destroyed, now);
    hide SideOk, EyesOk, EyesDistinct, EyesAimed, Ticked, WithEyes;
  }
}
