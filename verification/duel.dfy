/** A duel between two sides (internal/game/duel.go, internal/game/abilities.go,
internal/game/cleric.go, internal/game/rogue.go).

Each command keeps `Valid()` and is proved against the relations of DuelRules, whatever
the dice. `:|` stands for the world's random numbers. Messages to clients are left out,
except what a guess shows each player and what eyes see. */
module Duels {
  import opened Wordle
  import opened Boards
  import opened DuelSides
  import opened DuelRules
  import opened DuelSafety
  import opened DuelTurns
  import opened DuelHistory
  import Elo

  class Duel {
    // the puzzle
    const n: nat
    const maxGuesses: nat
    const dictionary: set<Word>
    const solutions: seq<Word>
    const threes: seq<Word>

    const a: DuelSide
    const b: DuelSide
    var nextEnergy: Time
    var deadline: Time
    /** How it ended; None while it is being played. */
    var ending: Option<Ending>

    ghost predicate PuzzleOk() {
      && n > 0 && maxGuesses > 0
      && (forall w | w in dictionary :: Letters(w))
      && |solutions| > 0 && (forall i | 0 <= i < |solutions| :: WordOk(solutions[i], n))
      && |threes| > 0 && (forall i | 0 <= i < |threes| :: threes[i] != [])
    }

    ghost predicate Valid()
      reads this, a, b
    {
      && a != b && PuzzleOk()
      && a.Ledger() && b.Ledger() && |a.word| == n && |b.word| == n
      && (ending.None? ==> DuelOk(a.State(), b.State(), n))
    }

    /** startDuel: both sides after the same word. */
    constructor (n: nat, maxGuesses: nat, dictionary: set<Word>, solutions: seq<Word>, threes: seq<Word>,
                 kindA: Kind, kindB: Kind, now: Time)
      requires n > 0 && maxGuesses > 0 && (forall w | w in dictionary :: Letters(w))
      requires |solutions| > 0 && (forall i | 0 <= i < |solutions| :: WordOk(solutions[i], n))
      requires |threes| > 0 && (forall i | 0 <= i < |threes| :: threes[i] != [])
      ensures Valid() && fresh(a) && fresh(b) && ending.None?
      ensures a.account == b.account == Opened()
      ensures a.word == b.word && a.word in solutions
      ensures a.State() == Side(kindA, a.word, [], maxGuesses, false, 0.0, NewSideEffects(n))
      ensures b.State() == Side(kindB, b.word, [], maxGuesses, false, 0.0, NewSideEffects(n))
      ensures nextEnergy == now + ENERGY_INTERVAL && deadline == ZERO
    {
      this.n, this.maxGuesses, this.dictionary, this.solutions, this.threes := n, maxGuesses, dictionary, solutions, threes;
      var i: nat :| i < |solutions|;
      a := new DuelSide(kindA, solutions[i], maxGuesses);
      b := new DuelSide(kindB, solutions[i], maxGuesses);
      nextEnergy, deadline, ending := now + ENERGY_INTERVAL, ZERO, None;
      new;
      NothingKnown(a.word);
    }

    predicate Pair(me: DuelSide, them: DuelSide) {
      (me == a && them == b) || (me == b && them == a)
    }

    function SeatOf(me: DuelSide): Seat {
      if me == a then First else Second
    }

    function Mine(s: Seat): DuelSide {
      if s == First then a else b
    }

    function OnTable(): Table
      reads this, a, b
    {
      Table(a.State(), b.State(), nextEnergy, deadline, ending)
    }

    function Rules(): Puzzle {
      Puzzle(n, maxGuesses, dictionary)
    }

    // ----- Seeing Eyes

    /** The letters eye number k of the watcher may be pointed at. */
    method EyeOptions(eyes: seq<Eye>, target: DuelSide, k: int) returns (options: seq<Tile>)
      ensures forall t :: t in options <==> CanLookAt(eyes, target.guesses, target.fx.destroyed, k, t)
    {
      options := [];
      for r := 0 to |target.guesses|
        invariant forall t :: t in options <==> t.row < r && CanLookAt(eyes, target.guesses, target.fx.destroyed, k, t)
      {
        for c := 0 to |target.guesses[r].colors|
          invariant forall t :: t in options <==>
            (t.row < r || (t.row == r && t.col < c)) && CanLookAt(eyes, target.guesses, target.fx.destroyed, k, t)
        {
          var t := Tile(r, c);
          if !(target.guesses[r].colors[c] == Green || t in target.fx.destroyed || Watching(eyes, t, k)) {
            options := options + [t];
          }
        }
      }
    }

    /** Points an eye at a random letter it may see, if there is one. */
    method Aim(eyes: seq<Eye>, target: DuelSide, k: int, e: Eye, now: Time) returns (aimed: Eye)
      ensures Aimed(eyes, target.guesses, target.fx.destroyed, k, now, e, aimed)
    {
      var options := EyeOptions(eyes, target, k);
      aimed := e.(next := now + EYE_INTERVAL, on := |options| > 0);
      if aimed.on {
        var i: nat :| i < |options|;
        assert options[i] in options;
        aimed := aimed.(at := options[i]);
      } else {
        assert forall t :: t !in options;
      }
    }

    /** Aims, in order, the watcher's eyes that must move, and tells the watcher what they
        see then. Every eye that may have lost its letter still has its row and column. */
    method AimEyes(why: Why, watcher: DuelSide, target: DuelSide, now: Time)
      requires watcher != target && Shaped(target.guesses)
      requires if why == EyeLost
               then forall k | 0 <= k < |watcher.fx.eyes| && watcher.fx.eyes[k].on :: OnBoard(target.guesses, watcher.fx.eyes[k].at)
               else EyesOk(watcher.fx.eyes, target.guesses, target.fx.destroyed)
      modifies watcher`fx
      ensures watcher.fx == old(watcher.fx).(eyes := watcher.fx.eyes)
      ensures EyesAimed(why, old(watcher.fx.eyes), watcher.fx.eyes, target.guesses, target.fx.destroyed, now)
    {
      var moved := false;
      ghost var from := watcher.fx.eyes;
      for k := 0 to |watcher.fx.eyes|
        invariant watcher.fx == old(watcher.fx).(eyes := watcher.fx.eyes)
        invariant |watcher.fx.eyes| == |from| && watcher.fx.eyes[k..] == from[k..]
        invariant forall j | 0 <= j < k ::
          if MustMove(why, from[j], target.guesses, target.fx.destroyed, now)
          then Aimed(watcher.fx.eyes[..j] + from[j..], target.guesses, target.fx.destroyed, j, now, from[j], watcher.fx.eyes[j])
          else watcher.fx.eyes[j] == from[j]
      {
        var eyes := watcher.fx.eyes;
        assert eyes[k] == from[k];
        var at := eyes[k].at;
        var moves := match why
          case EyeLost => eyes[k].on && (target.guesses[at.row].colors[at.col] == Green || at in target.fx.destroyed)
          case EyeIdle => !eyes[k].on
          case EyeDue => eyes[k].next <= now
          case EyeAll => true;
        if moves {
          assert eyes == eyes[..k] + from[k..];
          var e := Aim(eyes, target, k, eyes[k], now);
          watcher.fx := watcher.fx.(eyes := eyes[k := e]);
          moved := moved || why != EyeIdle || e.on;
          assert forall j | 0 <= j <= k :: eyes[k := e][..j] == eyes[..j];
        }
      }
      if moved {
        AimingKeepsEyes(why, from, watcher.fx.eyes, target.guesses, target.fx.destroyed, now);
        var _ := SeenByEyes(watcher, target);
      }
    }

    /** The letters under the watcher's eyes, which is what they are told. */
    method SeenByEyes(watcher: DuelSide, target: DuelSide) returns (tiles: seq<(Tile, char)>)
      requires EyesOk(watcher.fx.eyes, target.guesses, target.fx.destroyed)
      requires Shaped(target.guesses)
      ensures forall t | t in tiles ::
                && OnBoard(target.guesses, t.0) && t.1 == target.guesses[t.0.row].word[t.0.col]
                && target.guesses[t.0.row].colors[t.0.col] != Green && t.0 !in target.fx.destroyed
      ensures forall k | 0 <= k < |watcher.fx.eyes| && watcher.fx.eyes[k].on ::
                (watcher.fx.eyes[k].at, target.guesses[watcher.fx.eyes[k].at.row].word[watcher.fx.eyes[k].at.col]) in tiles
    {
      tiles := [];
      for k := 0 to |watcher.fx.eyes|
        invariant forall t | t in tiles ::
          && OnBoard(target.guesses, t.0) && t.1 == target.guesses[t.0.row].word[t.0.col]
          && target.guesses[t.0.row].colors[t.0.col] != Green && t.0 !in target.fx.destroyed
        invariant forall j | 0 <= j < k && watcher.fx.eyes[j].on ::
          (watcher.fx.eyes[j].at, target.guesses[watcher.fx.eyes[j].at.row].word[watcher.fx.eyes[j].at.col]) in tiles
      {
        if watcher.fx.eyes[k].on {
          var at := watcher.fx.eyes[k].at;
          tiles := tiles + [(at, target.guesses[at.row].word[at.col])];
        }
      }
    }

    /** No shield is left afterwards; it hits exactly when there was none before. */
    method Hostile(target: DuelSide) returns (hit: bool)
      modifies target`fx
      ensures hit <==> !old(target.fx.shield)
      ensures target.fx == if hit then old(target.fx) else old(target.fx).(shield := false)
    {
      hit := !target.fx.shield;
      target.fx := target.fx.(shield := false);
      assert hit ==> target.fx == old(target.fx);
    }

    // ----- Guessing

    method End(winner: Option<Seat>, reason: EndReason)
      modifies this`ending
      ensures ending == Some(Ending(winner, reason))
    {
      ending := Some(Ending(winner, reason));
    }

    /** What the guesser's passive does to the opponent. */
    method Provoke(me: DuelSide, them: DuelSide, now: Time)
      requires me != them && KeysOk(them.fx.keymap, them.fx.scrambledGuesses) && me.kind != Wizard
      modifies them`fx
      ensures Provoked(me.kind, old(them.State()), them.State(), now)
      ensures them.fx == old(them.fx).(shield := them.fx.shield, stunnedUntil := them.fx.stunnedUntil, keymap := them.fx.keymap,
                                       scrambledGuesses := them.fx.scrambledGuesses, silencedUntil := them.fx.silencedUntil)
    {
      var hit := Hostile(them);
      if hit {
        match me.kind
        case Knight => them.Stun(now + AGGRESSIVE_STUN);
        case Rogue => them.SwapKeys();
        case Cleric =>
          if now + DIVINE_WILL_SILENCE > them.fx.silencedUntil {
            them.fx := them.fx.(silencedUntil := now + DIVINE_WILL_SILENCE);
          }
      }
    }

    /** A guess found a new green: the guesser's passive. */
    method SetOffPassive(me: DuelSide, them: DuelSide, now: Time)
      requires me != them && KeysOk(them.fx.keymap, them.fx.scrambledGuesses)
      requires EyesOk(me.fx.eyes, them.guesses, them.fx.destroyed) && Shaped(them.guesses)
      modifies me`fx, them`fx
      ensures me.fx == old(me.fx).(eyes := me.fx.eyes)
      ensures if me.kind == Wizard && old(me.fx.eyes) != []
              then EyesAimed(EyeAll, old(me.fx.eyes), me.fx.eyes, them.guesses, them.fx.destroyed, now)
              else me.fx.eyes == old(me.fx.eyes)
      ensures Provoked(me.kind, old(them.State()), them.State(), now)
      ensures them.fx == old(them.fx).(shield := them.fx.shield, stunnedUntil := them.fx.stunnedUntil, keymap := them.fx.keymap,
                                       scrambledGuesses := them.fx.scrambledGuesses, silencedUntil := them.fx.silencedUntil)
    {
      if me.kind == Wizard {
        ProvokedByWizard(them.State(), now);
        if |me.fx.eyes| > 0 {
          AimEyes(EyeAll, me, them, now);
        }
      } else {
        Provoke(me, them, now);
      }
    }

    /** A guess pays for the letters that are new, and beats the missiles in flight. */
    method TakePay(me: DuelSide, row: GuessRow) returns (newGreen: bool)
      requires RowOk(row, me.word) && |row.word| == |row.colors| && me.Ledger()
      modifies me`fx, me`account
      ensures me.State() == Paid(old(me.State()), row)
      ensures me.account == Credited(old(me.account), Gain(old(me.fx.greens), old(me.fx.found), row))
      ensures newGreen <==> FindsGreen(old(me.State()), row)
      ensures me.Ledger()
    {
      hide RowOk, AccountOk, LearnedFound, LearnedGreens, NewGreenCount, Gain;
      newGreen := me.Learn(row, true);
      me.fx := me.fx.(missiles := []);
    }

    /** Everything that AfterGuess says follows the last guess on me's board. */
    method RewardGuess(me: DuelSide, them: DuelSide, now: Time)
      requires me != them && me.guesses != [] && RowOk(me.guesses[|me.guesses| - 1], me.word)
      requires me.Ledger() && KeysOk(them.fx.keymap, them.fx.scrambledGuesses)
      requires EyesOk(me.fx.eyes, them.guesses, them.fx.destroyed) && Shaped(them.guesses)
      requires EyesOk(them.fx.eyes, me.guesses, me.fx.destroyed) && Shaped(me.guesses)
      modifies me`fx, me`account, them`fx
      ensures AfterGuess(old(me.State()), old(them.State()), me.guesses[|me.guesses| - 1], now, me.State(), them.State())
      ensures me.Ledger()
      ensures me.account == Credited(old(me.account), Gain(old(me.fx.greens), old(me.fx.found), me.guesses[|me.guesses| - 1]))
      ensures them.fx.greens == old(them.fx.greens) && them.fx.found == old(them.fx.found)
    {
      hide RowOk, EyesAimed, Provoked, KeysOk, EyesOk, Shaped, AccountOk, LearnedFound, LearnedGreens, NewGreenCount, Gain, AfterGuess, FindsGreen;
      var row := me.guesses[|me.guesses| - 1];
      RowLengths(row, me.word);
      var newGreen := TakePay(me, row);
      if newGreen {
        SetOffPassive(me, them, now);
      }
      ghost var provoked := them.State();
      AimEyes(EyeIdle, them, me, now);
      EyesBack(provoked, them.fx.eyes);
      AfterGuessParts(old(me.State()), old(them.State()), row, now, me.State(), provoked, them.State());
    }

    /** Puts a guess on the guesser's board. */
    method Record(me: DuelSide, up: Word, colors: seq<Color>) returns (row: GuessRow)
      requires |up| == |me.word| && colors == Colors(up, me.word)
      modifies me`guesses, me`best, me`solved, me`fx
      ensures row == RecordedRow(old(me.State()), up)
      ensures me.State() == Guessed(old(me.State()), up)
    {
      hide Colors;
      row := TrueRow(up, colors);
      if !Solves(colors) {
        if me.fx.feint.Some? {
          row := row.(shown := me.fx.feint.value);
        }
        if me.fx.falseNext.Some? {
          row := row.(seen := me.fx.falseNext.value);
        }
      }
      me.fx := me.fx.(cheat := false, feint := None, falseNext := None);
      if me.fx.scrambledGuesses > 0 {
        me.fx := me.fx.(scrambledGuesses := me.fx.scrambledGuesses - 1);
        if me.fx.scrambledGuesses == 0 {
          me.fx := me.fx.(keymap := None);
        }
      }
      me.guesses := me.guesses + [row];
      var c := Elo.ComputeCloseness(colors);
      me.best := if me.best < c then c else me.best;
      if Solves(colors) {
        me.solved := true;
      }
    }

    method ScoreGuess(me: DuelSide, guess: Word) returns (r: Scored)
      requires PuzzleOk()
      ensures r.valid <==> GuessCounts(me.State(), guess, dictionary)
      ensures r.valid ==> r.colors == Colors(Upper(guess), me.word) && Letters(Upper(guess))
    {
      if me.fx.cheat {
        r := ScoreAny(guess, me.word);
      } else {
        r := Score(guess, me.word, dictionary);
      }
      if r.valid {
        FairIsColors(Upper(guess), me.word, r.colors);
      }
    }

    /** Scores a guess. It ends the duel exactly when it is the word, or when it was the
        last guess either side had. */
    method DuelGuess(me: DuelSide, them: DuelSide, guess: Word, now: Time) returns (res: GuessResult)
      requires Valid() && Pair(me, them)
      modifies this`ending, me, them
      ensures Valid()
      ensures !res.Played? ==> me.State() == old(me.State()) && them.State() == old(them.State()) && ending == old(ending)
      ensures res.NotPlaying? <==> old(ending).Some? || old(me.State()).Done()
      ensures res.Stuck? <==> !res.NotPlaying? && old(me.State()).Blocked(now)
      ensures res.Played? <==> !res.NotPlaying? && !res.Stuck? && GuessCounts(old(me.State()), guess, dictionary)
      ensures res.Played? ==>
                var me0, them0, up := old(me.State()), old(them.State()), Upper(guess);
                && (Solves(res.seen) <==> up == me0.word) && (Solves(res.shown) <==> up == me0.word)
                && res.seen == RecordedRow(me0, up).seen && res.shown == RecordedRow(me0, up).shown
                && ending == EndingOf(me0, them0, up, SeatOf(me))
                && (if ending.Some? then me.State() == Guessed(me0, up) && them.State() == them0
                    else GuessEffect(me0, them0, up, now, me.State(), them.State()))
      ensures them.account == old(them.account)
      ensures me.account == if res.Played? && ending.None?
                            then Credited(old(me.account), LetterPay(old(me.State()), Upper(guess))) else old(me.account)
      ensures res.Played? && ending.None? ==>
                && KeepsRows(old(them.State()), them.State())
                && KeepsApart(old(me.State()), me.State()) && KeepsApart(old(them.State()), them.State())
    {
      hide KeepsRows, KeepsApart;
      hide SideOk, Watches, RecordedRow, Guessed, AfterGuess, AccountOk, RowOk, KeysOk, EyesOk, Shaped, Colors, Solves, Gain;
      if ending.Some? || me.State().Done() {
        return NotPlaying;
      }
      if me.State().Blocked(now) {
        return Stuck;
      }
      var scored := ScoreGuess(me, guess);
      if !scored.valid {
        return Invalid;
      }
      ghost var me0, them0, up := me.State(), them.State(), Upper(guess);
      DuelOkSwap(a.State(), b.State(), n);
      KeysOfSide(them0, n);
      KeysOfSide(me0, n);
      RecordedRowOk(me0, up, n);
      GuessedShape(me0, up, n);
      GuessedBoards(me0, them0, up, n);
      var row := Record(me, Upper(guess), scored.colors);
      res := Played(row.seen, row.shown);
      if me.solved {
        End(Some(SeatOf(me)), Solved);
      } else if me.State().Out() && them.State().Out() {
        End(None, OutOfGuesses);
      } else {
        RewardGuess(me, them, now);
        GuessKeepsDuel(me0, them0, up, now, me.State(), them.State(), n);
        DuelOkSwap(me.State(), them.State(), n);
      }
    }

    // ----- Casting

    method CastKnight(id: Ability, me: DuelSide, them: DuelSide, req: Request, now: Time)
      requires me != them && (id.Slash? || id.ShieldsUp? || id.Determination? || id.PommelStrike? || id.Cripple?)
      requires Shaped(them.guesses)
      requires forall k | 0 <= k < |me.fx.eyes| && me.fx.eyes[k].on :: OnBoard(them.guesses, me.fx.eyes[k].at)
      modifies me`fx, me`rows, them`fx, them`rows
      ensures CastEffect(id, req, now, maxGuesses, old(me.State()), old(them.State()), me.State(), them.State())
      ensures SameKnowledge(old(me.fx), me.fx) && SameKnowledge(old(them.fx), them.fx)
    {
      hide EyesAimed, FateEffect, Aimed, EyesMended;
      match id
      case Slash =>
        var hit := Hostile(them);
        if hit {
          them.fx := them.fx.(destroyed := them.fx.destroyed + {Target(req)});
          AimEyes(EyeLost, me, them, now);
        }
      case ShieldsUp => me.fx := me.fx.(shield := true);
      case Determination => me.rows := me.rows + 1;
      case PommelStrike =>
        var hit := Hostile(them);
        if hit {
          them.Stun(now + POMMEL_STUN);
        }
      case Cripple =>
        var hit := Hostile(them);
        if hit {
          them.rows := them.rows - 1;
        }
    }

    method CastWizard(id: Ability, me: DuelSide, them: DuelSide, req: Request, now: Time) returns (inWord: bool)
      requires me != them && PuzzleOk()
      requires id.Scry? || id.SeeingEye? || id.MagicMissile? || id.CastIllusion?
      requires id.Scry? ==> |req.letter| == 1
      requires EyesOk(me.fx.eyes, them.guesses, them.fx.destroyed) && Shaped(them.guesses)
      modifies me`fx, them`fx
      ensures CastEffect(id, req, now, maxGuesses, old(me.State()), old(them.State()), me.State(), them.State())
      ensures SameKnowledge(old(me.fx), me.fx) && SameKnowledge(old(them.fx), them.fx)
      ensures id.Scry? ==> (inWord <==> UpperChar(req.letter[0]) in me.word)
    {
      hide EyesAimed, FateEffect, Aimed, EyesMended;
      inWord := false;
      match id
      case Scry => inWord := UpperChar(req.letter[0]) in me.word;
      case SeeingEye =>
        var hit := Hostile(them);
        if hit {
          var eyes := me.fx.eyes;
          var e := Aim(eyes, them, |eyes|, Eye(Tile(0, 0), false, ZERO), now);
          me.fx := me.fx.(eyes := eyes + [e]);
          NewEyeKeeps(eyes, e, them.guesses, them.fx.destroyed, now, Eye(Tile(0, 0), false, ZERO));
          var _ := SeenByEyes(me, them);
          assert me.fx.eyes[..|eyes|] == eyes && me.fx.eyes[|eyes|] == e;
        }
      case MagicMissile =>
        // no shield is asked about now
        them.fx := them.fx.(missiles := them.fx.missiles + [now + MISSILE_FLIGHT]);
      case CastIllusion =>
        var hit := Hostile(them);
        if hit {
          var i: nat :| i < |threes|;
          them.fx := them.fx.(illusion := Some(Illusion(threes[i], 0)));
        }
    }

    method CastRogue(id: Ability, me: DuelSide, them: DuelSide, req: Request, now: Time) returns (letter: Option<char>)
      requires me != them
      requires id.Pickpocket? || id.Cheat? || id.Feint? || id.UnderTheirNose? || id.Confuse?
      requires id.Pickpocket? ==> 0 <= req.row < |them.guesses| && 0 <= req.col < |them.guesses[req.row].word|
      modifies me`fx, them`fx
      ensures CastEffect(id, req, now, maxGuesses, old(me.State()), old(them.State()), me.State(), them.State())
      ensures SameKnowledge(old(me.fx), me.fx) && SameKnowledge(old(them.fx), them.fx)
      ensures id.Pickpocket? ==>
                letter == if old(them.fx.shield) then None else Some(them.guesses[req.row].word[req.col])
    {
      hide EyesAimed, FateEffect, Aimed, EyesMended, Permutation;
      letter := None;
      match id
      case Pickpocket =>
        var hit := Hostile(them);
        if hit {
          letter := Some(them.guesses[req.row].word[req.col]);
        }
      case Cheat => me.fx := me.fx.(cheat := true);
      case Feint => me.fx := me.fx.(feint := Some(req.colors));
      case UnderTheirNose =>
        if them.fx.shield {
          var _ := Hostile(them);
        } else {
          them.fx := them.fx.(falseNext := Some(req.colors));
        }
      case Confuse =>
        var hit := Hostile(them);
        if hit {
          them.Scramble();
        }
    }

    /** Deletes a row of me's board; `them` keep watching by the rules of EyesMended. */
    method MendRow(me: DuelSide, them: DuelSide, row: nat, now: Time)
      requires me != them && row < |me.guesses|
      requires EyesOk(them.fx.eyes, me.guesses, me.fx.destroyed) && Shaped(me.guesses)
      modifies me`guesses, me`fx, them`fx
      ensures me.guesses == Without(old(me.guesses), row)
      ensures me.fx == old(me.fx).(destroyed := MendedDestroyed(old(me.fx.destroyed), row))
      ensures them.fx == old(them.fx).(eyes := them.fx.eyes)
      ensures EyesMended(old(them.fx.eyes), them.fx.eyes, row, me.guesses, me.fx.destroyed, now)
    {
      hide MendedDestroyed, Visible, EyesOk, Shaped;
      ghost var guesses, destroyed, from := me.guesses, me.fx.destroyed, them.fx.eyes;
      me.guesses := me.guesses[..row] + me.guesses[row + 1..];
      me.fx := me.fx.(destroyed := MendedDestroyed(me.fx.destroyed, row));
      var moved := false;
      for k := 0 to |them.fx.eyes|
        invariant them.fx == old(them.fx).(eyes := them.fx.eyes)
        invariant me.guesses == Without(guesses, row)
        invariant me.fx == old(me.fx).(destroyed := MendedDestroyed(destroyed, row))
        invariant |them.fx.eyes| == |from| && them.fx.eyes[k..] == from[k..]
        invariant forall j | 0 <= j < k ::
          if from[j].on && from[j].at.row == row
          then Aimed(them.fx.eyes[..j] + from[j..], me.guesses, me.fx.destroyed, j, now, from[j], them.fx.eyes[j])
          else them.fx.eyes[j] == if from[j].on then from[j].(at := MovedUp(from[j].at, row)) else from[j]
      {
        var eyes := them.fx.eyes;
        var e := eyes[k];
        assert e == from[k];
        if e.on && e.at.row == row {
          assert eyes == eyes[..k] + from[k..];
          e := Aim(eyes, me, k, e, now);
          moved := true;
        } else if e.on && e.at.row > row {
          e := e.(at := Tile(e.at.row - 1, e.at.col));
          moved := true;
        }
        them.fx := them.fx.(eyes := eyes[k := e]);
        assert forall j | 0 <= j <= k :: eyes[k := e][..j] == eyes[..j];
      }
      if moved {
        MendKeepsEyes(from, them.fx.eyes, row, guesses, destroyed, now);
        MendKeepsShape(guesses, row);
        var _ := SeenByEyes(them, me);
      }
    }

    /** The Cleric's abilities but intervention. heard: a god is free to listen. */
    method CastCleric(id: Ability, me: DuelSide, them: DuelSide, req: Request, now: Time, heard: bool)
      requires me != them && (id.MinorPrayer? || id.MajorPrayer? || id.Mend? || id.Purify?)
      requires id.Mend? ==> 0 <= req.row < |me.guesses|
      requires EyesOk(them.fx.eyes, me.guesses, me.fx.destroyed) && Shaped(me.guesses)
      requires |me.fx.greens| == |me.word| && me.word != []
      modifies me`guesses, me`fx, them`fx
      ensures CastEffect(id, req, now, maxGuesses, old(me.State()), old(them.State()), me.State(), them.State())
      ensures !id.Mend? && !id.Purify? ==>
                me.State() == if heard then old(me.State()) else Refunded(old(me.State()), Cost(id))
      ensures SameKnowledge(old(me.fx), me.fx) && SameKnowledge(old(them.fx), them.fx)
    {
      hide EyesAimed, FateEffect, Aimed, EyesMended, MendedDestroyed, Without, ExactlyShown, Permutation;
      match id
      case Mend => MendRow(me, them, req.row, now);
      case Purify => Cleanse(me, them);
      case MinorPrayer => var _ := Pray(me, id, heard);
      case MajorPrayer => var _ := Pray(me, id, heard);
    }

    /** Clears every curse on me, the opponent's eyes too. */
    method Cleanse(me: DuelSide, them: DuelSide)
      requires me != them && Shaped(me.guesses)
      modifies me`fx, them`fx
      ensures me.fx == old(me.fx).(stunnedUntil := ZERO, silencedUntil := ZERO, keymap := None, scrambledGuesses := 0,
                                   falseNext := None, missiles := [], illusion := None)
      ensures them.fx == old(them.fx).(eyes := [])
    {
      me.fx := me.fx.(stunnedUntil := ZERO, silencedUntil := ZERO);
      me.fx := me.fx.(keymap := None, scrambledGuesses := 0);
      me.fx := me.fx.(falseNext := None);
      me.fx := me.fx.(missiles := []);
      if me.fx.illusion.Some? {
        me.fx := me.fx.(illusion := None);
      }
      if |them.fx.eyes| > 0 {
        them.fx := them.fx.(eyes := []);
        var _ := SeenByEyes(them, me);
      }
      assert them.fx.eyes == [];
    }

    /** Some position, not yet green as long as there is one that isn't. */
    method PrayerLetter(s: DuelSide) returns (pos: nat)
      requires |s.fx.greens| == |s.word| && s.word != []
      ensures pos < |s.word|
      ensures (exists i | 0 <= i < |s.word| :: !s.fx.greens[i]) ==> !s.fx.greens[pos]
    {
      var open: seq<nat> := [];
      for i := 0 to |s.fx.greens|
        invariant forall k | 0 <= k < |open| :: open[k] < |s.word| && !s.fx.greens[open[k]]
        invariant open == [] ==> forall k | 0 <= k < i :: s.fx.greens[k]
      {
        if !s.fx.greens[i] {
          open := open + [i];
        }
      }
      if |open| == 0 {
        pos :| pos < |s.word|;
      } else {
        var k: nat :| k < |open|;
        pos := open[k];
      }
    }

    /** Asks about a letter, or about the whole word. With no god free to listen, the energy
        comes back at once. */
    method Pray(me: DuelSide, id: Ability, heard: bool) returns (about: Option<nat>)
      requires |me.fx.greens| == |me.word| && me.word != []
      modifies me`fx
      ensures me.State() == if heard then old(me.State()) else Refunded(old(me.State()), Cost(id))
      ensures about.Some? <==> id.MinorPrayer?
      ensures about.Some? ==> about.value < |me.word|
      ensures about.Some? && (exists i | 0 <= i < |me.word| :: !me.fx.greens[i]) ==> !me.fx.greens[about.value]
    {
      about := None;
      if id.MinorPrayer? {
        var pos := PrayerLetter(me);
        about := Some(pos);
      }
      if !heard {
        me.fx := me.fx.(energy := me.fx.energy + Cost(id));
      }
    }

    /** Neither side's word, and nothing either has guessed. */
    predicate Free(w: Word)
      reads a, b
    {
      Untaken(a.State(), w) && Untaken(b.State(), w)
    }

    /** The first free word of up to a hundred tried; side a's own exactly when all hundred
        are taken. */
    method DivineWord() returns (w: Word, tried: seq<Word>)
      requires PuzzleOk() && WordOk(a.word, n)
      ensures WordOk(w, n) && |tried| <= 100 && forall i | 0 <= i < |tried| :: tried[i] in solutions
      ensures if Free(w) then tried != [] && w == tried[|tried| - 1] && (forall i | 0 <= i < |tried| - 1 :: !Free(tried[i]))
              else w == a.word && |tried| == 100 && (forall i | 0 <= i < |tried| :: !Free(tried[i]))
    {
      tried := [];
      for tries := 0 to 100
        invariant |tried| == tries && forall i | 0 <= i < |tried| :: tried[i] in solutions && !Free(tried[i])
      {
        var i: nat :| i < |solutions|;
        var next := solutions[i];
        tried := tried + [next];
        if next != a.word && next != b.word
           && (forall r | 0 <= r < |a.guesses| :: a.guesses[r].word != next)
           && (forall r | 0 <= r < |b.guesses| :: b.guesses[r].word != next) {
          return next, tried;
        }
      }
      return a.word, tried;
    }

    method Wipe(s: DuelSide)
      requires PuzzleOk()
      modifies s`guesses, s`rows, s`best, s`fx, s`account
      requires s.Ledger()
      ensures s.State() == Wiped(old(s.State()), maxGuesses) && s.Ledger()
      ensures s.account == WipedAccount(old(s.account))
    {
      hide AccountOk;
      AccountWipes(s.account, s.word, s.fx.greens, s.fx.found);
      s.guesses, s.rows, s.best, s.fx := [], maxGuesses, 0.0, NewSideEffects(|s.word|);
      s.account := WipedAccount(s.account);
    }

    /** One side's word becomes w. Eyes on its board keep existing tiles. */
    method ChangeWordOf(s: DuelSide, w: Word)
      requires SideOk(s.State(), n) && WordOk(w, n)
      modifies s`word, s`guesses, s`fx, s`best, s`account
      ensures Rescored(old(s.State()), s.State(), w) && s.word == w
      ensures s.fx.eyes == old(s.fx.eyes) && s.fx.destroyed == old(s.fx.destroyed)
      ensures s.Ledger() && s.account == Opened() && |s.fx.greens| == n && Shaped(s.guesses)
      ensures forall t :: OnBoard(old(s.guesses), t) ==> OnBoard(s.guesses, t)
    {
      hide SideOk, RowsOk, KnowledgeOk, ExactlyShown, RescoredRows, AccountOk, Letters;
      SideWords(s.State(), n);
      ghost var guesses := s.guesses;
      RescoredTiles(guesses, w);
      s.Rescore(w);
      s.LedgerShape();
    }

    /** The gods change the word of both sides. */
    method ChangeWord(now: Time)
      requires a != b && PuzzleOk() && SideOk(a.State(), n) && SideOk(b.State(), n)
      requires Watches(a.State(), b.State()) && Watches(b.State(), a.State()) && |a.word| == n
      modifies a, b
      ensures FateEffect(NewWord, now, maxGuesses, old(a.State()), old(b.State()), a.State(), b.State())
      ensures a.word == old(a.word) || (Untaken(old(a.State()), a.word) && Untaken(old(b.State()), a.word))
      ensures a.Ledger() && b.Ledger() && |a.word| == n && |b.word| == n
      ensures a.account == Opened() && b.account == Opened()
    {
      hide SideOk, Watches, Untaken, Rescored, EyesAimed, AccountOk, Letters, OnBoard, FateEffect, Shaped;
      SideWords(a.State(), n);
      var w, _ := DivineWord();
      EyesInRange(a.State(), b.State());
      EyesInRange(b.State(), a.State());
      ghost var a0, b0 := a.State(), b.State();
      ChangeWordOf(a, w);
      ChangeWordOf(b, w);
      ghost var a1, b1 := a.State(), b.State();
      AimEyes(EyeLost, a, b, now);
      AimEyes(EyeLost, b, a, now);
      assert a.State() == WithEyes(a1, a.fx.eyes) && b.State() == WithEyes(b1, b.fx.eyes);
      NewWordFate(w, now, maxGuesses, a0, b0, a1, b1, a.fx.eyes, b.fx.eyes);
    }

    /** A column to reveal to both: one neither has found, if there is one. */
    method Reveal() returns (r: Revealed)
      requires n > 0 && |a.word| == n && |b.word| == n && a.Ledger() && b.Ledger()
      ensures Reveals(a.State(), b.State(), r)
    {
      a.LedgerShape();
      b.LedgerShape();
      hide AccountOk;
      var open: seq<nat> := [];
      for i := 0 to |a.fx.greens|
        invariant forall k | 0 <= k < |open| :: open[k] < n && !a.fx.greens[open[k]] && !b.fx.greens[open[k]]
        invariant open == [] ==> forall k | 0 <= k < i :: a.fx.greens[k] || b.fx.greens[k]
      {
        if !a.fx.greens[i] && !b.fx.greens[i] {
          open := open + [i];
        }
      }
      var col: nat :| col < n;
      if |open| > 0 {
        var k: nat :| k < |open|;
        col := open[k];
      }
      return Revealed(col, a.word[col], b.word[col]);
    }

    /** Divine Intervention: the gods pick a fate. */
    method Intervene(now: Time) returns (fate: Fate, shown: Option<Revealed>)
      requires a != b && PuzzleOk() && SideOk(a.State(), n) && SideOk(b.State(), n) && a.Ledger() && b.Ledger()
      requires Watches(a.State(), b.State()) && Watches(b.State(), a.State()) && |a.word| == n && |b.word| == n
      modifies a, b, this`deadline, this`nextEnergy
      ensures FateEffect(fate, now, maxGuesses, old(a.State()), old(b.State()), a.State(), b.State())
      ensures deadline == FateDeadline(fate, now, old(deadline))
      ensures nextEnergy == FateEnergyClock(fate, now, old(nextEnergy))
      ensures a.Ledger() && b.Ledger() && |a.word| == n && |b.word| == n
      ensures a.account == FateAccount(Some(fate), old(a.account)) && b.account == FateAccount(Some(fate), old(b.account))
      ensures shown.Some? <==> fate.Revelation?
      ensures shown.Some? ==> Reveals(a.State(), b.State(), shown.value)
    {
      hide SideOk, Watches, Untaken, Rescored, EyesAimed, AccountOk;
      var roll: nat :| roll < 5;
      fate, shown := [CleanSlate, NewWord, SuddenDeath, Revelation, Fortune][roll], None;
      match fate
      case CleanSlate =>
        Wipe(a);
        Wipe(b);
        deadline := ZERO;
        nextEnergy := now + ENERGY_INTERVAL;
      case NewWord => ChangeWord(now);
      case SuddenDeath =>
        if deadline == ZERO || now + SUDDEN_DEATH < deadline {
          deadline := now + SUDDEN_DEATH;
        }
      case Revelation =>
        var revealed := Reveal();
        shown := Some(revealed);
      case Fortune =>
        var energy := a.fx.energy;
        a.fx := a.fx.(energy := b.fx.energy);
        b.fx := b.fx.(energy := energy);
    }

    /** Distinct solutions that are Untaken for the target. */
    method ReshapeWords(target: DuelSide) returns (words: seq<Word>)
      requires PuzzleOk()
      ensures Offerable(target.State(), words, n)
    {
      words := [];
      for tries := 0 to 100
        invariant Offerable(target.State(), words, n)
      {
        if |words| == RESHAPE_OPTIONS {
          break;
        }
        var i: nat :| i < |solutions|;
        var word := solutions[i];
        if word != target.word && word !in words && (forall r | 0 <= r < |target.guesses| :: target.guesses[r].word != word) {
          words := words + [word];
        }
      }
    }

    /** Has the CastEffect of the ability on sides whose caster has paid. */
    method Cast(id: Ability, me: DuelSide, them: DuelSide, req: Request, now: Time, heard: bool) returns (fate: Option<Fate>)
      requires a != b && Pair(me, them) && PuzzleOk() && DuelOk(me.State(), them.State(), n) && !id.ReshapeReality?
      requires CanCast(id, me.State(), them.State(), req) && me.Ledger() && them.Ledger()
      modifies me, them, this`deadline, this`nextEnergy
      ensures CastEffect(id, req, now, maxGuesses, old(me.State()), old(them.State()), me.State(), them.State())
      ensures me.Ledger() && them.Ledger() && |me.word| == n && |them.word| == n
      ensures me.account == FateAccount(fate, old(me.account)) && them.account == FateAccount(fate, old(them.account))
      ensures fate.Some? <==> id.DivineIntervention?
      ensures fate.Some? ==>
                FateEffect(fate.value, now, maxGuesses, old(me.State()), old(them.State()), me.State(), them.State())
      ensures id.MinorPrayer? || id.MajorPrayer? ==>
                me.State() == if heard then old(me.State()) else Refunded(old(me.State()), Cost(id))
      ensures fate.Some? ==> deadline == FateDeadline(fate.value, now, old(deadline))
                             && nextEnergy == FateEnergyClock(fate.value, now, old(nextEnergy))
      ensures fate.None? ==> deadline == old(deadline) && nextEnergy == old(nextEnergy)
    {
      hide SideOk, Watches, CastEffect, FateEffect, CanCast, AccountOk;
      if id.DivineIntervention? {
        var f := CastIntervention(me, them, req, now);
        fate := Some(f);
      } else {
        CastPlain(id, me, them, req, now, heard);
        fate := None;
      }
    }

    /** The abilities that leave fate out of it. */
    method CastPlain(id: Ability, me: DuelSide, them: DuelSide, req: Request, now: Time, heard: bool)
      requires a != b && Pair(me, them) && PuzzleOk() && DuelOk(me.State(), them.State(), n)
      requires !id.ReshapeReality? && !id.DivineIntervention?
      requires CanCast(id, me.State(), them.State(), req) && me.Ledger() && them.Ledger()
      modifies me, them
      ensures CastEffect(id, req, now, maxGuesses, old(me.State()), old(them.State()), me.State(), them.State())
      ensures id.MinorPrayer? || id.MajorPrayer? ==>
                me.State() == if heard then old(me.State()) else Refunded(old(me.State()), Cost(id))
      ensures me.Ledger() && them.Ledger() && |me.word| == n && |them.word| == n
      ensures me.account == old(me.account) && them.account == old(them.account)
    {
      hide SideOk, Watches, CastEffect, FateEffect, AccountOk;
      CastFacts(id, me.State(), them.State(), req, n);
      match id
      case Slash => CastKnight(id, me, them, req, now);
      case ShieldsUp => CastKnight(id, me, them, req, now);
      case Determination => CastKnight(id, me, them, req, now);
      case PommelStrike => CastKnight(id, me, them, req, now);
      case Cripple => CastKnight(id, me, them, req, now);
      case Scry => var _ := CastWizard(id, me, them, req, now);
      case SeeingEye => var _ := CastWizard(id, me, them, req, now);
      case MagicMissile => var _ := CastWizard(id, me, them, req, now);
      case CastIllusion => var _ := CastWizard(id, me, them, req, now);
      case Pickpocket => var _ := CastRogue(id, me, them, req, now);
      case Cheat => var _ := CastRogue(id, me, them, req, now);
      case Feint => var _ := CastRogue(id, me, them, req, now);
      case UnderTheirNose => var _ := CastRogue(id, me, them, req, now);
      case Confuse => var _ := CastRogue(id, me, them, req, now);
      case MinorPrayer => CastCleric(id, me, them, req, now, heard);
      case MajorPrayer => CastCleric(id, me, them, req, now, heard);
      case Mend => CastCleric(id, me, them, req, now, heard);
      case Purify => CastCleric(id, me, them, req, now, heard);
    }

    /** The gods treat both sides alike, whoever begged. */
    method CastIntervention(me: DuelSide, them: DuelSide, req: Request, now: Time) returns (fate: Fate)
      requires a != b && Pair(me, them) && PuzzleOk() && DuelOk(me.State(), them.State(), n)
      requires me.Ledger() && them.Ledger()
      modifies me, them, this`deadline, this`nextEnergy
      ensures CastEffect(DivineIntervention, req, now, maxGuesses, old(me.State()), old(them.State()), me.State(), them.State())
      ensures FateEffect(fate, now, maxGuesses, old(me.State()), old(them.State()), me.State(), them.State())
      ensures me.Ledger() && them.Ledger() && |me.word| == n && |them.word| == n
      ensures me.account == FateAccount(Some(fate), old(me.account)) && them.account == FateAccount(Some(fate), old(them.account))
      ensures deadline == FateDeadline(fate, now, old(deadline)) && nextEnergy == FateEnergyClock(fate, now, old(nextEnergy))
    {
      hide SideOk, Watches, CastEffect, FateEffect, AccountOk;
      ghost var me0, them0 := me.State(), them.State();
      DuelBoards(me0, them0, n);
      var f, _ := Intervene(now);
      fate := f;
      FateEitherWay(fate, req, now, maxGuesses, me0, them0, me.State(), them.State());
    }

    /** Casts, offers words, or refuses, by MayCast. `heard` says whether a prayer would find
        a slot. */
    method CastAbility(me: DuelSide, them: DuelSide, req: Request, now: Time, heard: bool) returns (res: CastResult)
      requires Valid() && Pair(me, them)
      modifies me, them, this`deadline, this`nextEnergy
      ensures Valid()
      ensures res.Refused? <==> ending.Some? || !MayCast(old(me.State()), old(them.State()), req, now)
      ensures res.Refused? ==> me.State() == old(me.State()) && them.State() == old(them.State())
      ensures res.Offered? ==>
                && AbilityAt(me.kind, req.slot) == Some(Ability.ReshapeReality) && them.State() == old(them.State())
                && me.State() == old(me.State()).(fx := old(me.fx).(reshape := me.fx.reshape))
                && Offerable(them.State(), me.fx.reshape, n)
      ensures res.Used? ==>
                && AbilityAt(me.kind, req.slot) == Some(res.id) && res.id != Ability.ReshapeReality
                && CastEffect(res.id, req, now, maxGuesses, Spent(old(me.State()), Cost(res.id)), old(them.State()),
                              me.State(), them.State())
      ensures res.Used? ==>
                var paid, them0 := Spent(old(me.State()), Cost(res.id)), old(them.State());
                && (res.fate.Some? <==> res.id.DivineIntervention?)
                && (res.fate.Some? ==> FateEffect(res.fate.value, now, maxGuesses, paid, them0, me.State(), them.State()))
                && (res.id.MinorPrayer? || res.id.MajorPrayer? ==>
                      me.State() == if heard then paid else Refunded(paid, Cost(res.id)))
      ensures var fate := if res.Used? then res.fate else None;
              me.account == FateAccount(fate, old(me.account)) && them.account == FateAccount(fate, old(them.account))
      ensures if res.Used? && res.fate.Some?
              then deadline == FateDeadline(res.fate.value, now, old(deadline))
                   && nextEnergy == FateEnergyClock(res.fate.value, now, old(nextEnergy))
              else deadline == old(deadline) && nextEnergy == old(nextEnergy)
      ensures ending.None? ==> KeepsRows(old(me.State()), me.State()) && KeepsRows(old(them.State()), them.State())
      ensures ending.None? ==> KeepsApart(old(me.State()), me.State())
      ensures ending.None? ==> (res == Used(Mend, None) && MayCollide(old(them.fx.eyes), req.row))
                               || KeepsApart(old(them.State()), them.State())
    {
      hide SideOk, Watches, CastEffect, FateEffect, CanCast, AccountOk, KeepsRows, MayCollide, EyesDistinct, Offerable;
      if ending.Some? || !MayCast(me.State(), them.State(), req, now) {
        KeepsSame(me.State());
        KeepsSame(them.State());
        return Refused;
      }
      DuelOkSwap(a.State(), b.State(), n);
      ghost var me0, them0 := me.State(), them.State();
      var id := AbilityAt(me.kind, req.slot).value;
      if id == Ability.ReshapeReality {
        // nothing is paid until there is a pick
        var words := ReshapeWords(them);
        me.fx := me.fx.(reshape := words);
        OfferKeeps(me0, them0, words, n);
        DuelOkSwap(me.State(), them.State(), n);
        return Offered;
      }
      SpendKeeps(id, me0, them0, req, n);
      me.fx := me.fx.(energy := me.fx.energy - Cost(id));
      var fate := Cast(id, me, them, req, now, heard);
      me.LedgerShape();
      them.LedgerShape();
      CastKeepsDuel(id, req, now, maxGuesses, Spent(me0, Cost(id)), them0, me.State(), them.State(), n);
      SpentRows(me0, Cost(id), me.State());
      DuelOkSwap(me.State(), them.State(), n);
      return Used(id, fate);
    }

    // ----- Reshape Reality's pick, and the puzzle inside an Illusion

    /** The caster picked a word. It is paid for now, and only if it was offered. */
    method ReshapeReality(me: DuelSide, them: DuelSide, word: Word, now: Time) returns (done: bool)
      requires Valid() && Pair(me, them)
      modifies me, them
      ensures Valid()
      ensures done <==> ending.None? && me.kind == Wizard && Upper(word) in old(me.fx.reshape)
                        && old(me.fx.energy) >= Cost(Ability.ReshapeReality)
      ensures !done ==> me.State() == old(me.State()) && them.State() == old(them.State())
      ensures me.account == old(me.account)
      ensures them.account == if done && !old(them.fx.shield) then Opened() else old(them.account)
      ensures done ==> ReshapeEffect(Upper(word), now, old(me.State()), old(them.State()), me.State(), them.State())
      ensures ending.None? ==> KeepsRows(old(me.State()), me.State()) && KeepsRows(old(them.State()), them.State())
      ensures ending.None? ==> KeepsApart(old(me.State()), me.State()) && KeepsApart(old(them.State()), them.State())
    {
      hide SideOk, Watches, AccountOk, KeepsRows, KeepsApart, Rescored, EyesAimed, OnBoard;
      var up := Upper(word);
      if ending.Some? || me.kind != Wizard || up !in me.fx.reshape || me.fx.energy < Cost(Ability.ReshapeReality) {
        KeepsSame(me.State());
        KeepsSame(them.State());
        return false;
      }
      done := true;
      DuelOkSwap(a.State(), b.State(), n);
      ghost var me0, them0, paid := me.State(), them.State(), ReshapePaid(me.State());
      ReshapePaidKeeps(me0, them0, up, n);
      me.fx := me.fx.(reshape := [], energy := me.fx.energy - Cost(Ability.ReshapeReality));
      var hit := Hostile(them);
      if hit {
        EyesInRange(paid, them0);
        ChangeWordOf(them, up);
        ghost var them1 := them.State();
        AimEyes(EyeLost, me, them, now);
        assert me.State() == WithEyes(paid, me.fx.eyes) && them.State() == them1;
        ReshapeKeeps(paid, them0, me.State(), them.State(), up, now, n);
        PickTurned(them0, them.State(), up);
      } else {
        UnshieldedKeeps(paid, them0, n);
        KeepsSame(paid);
      }
      ReshapePaidSame(me0, me.State());
      DuelOkSwap(me.State(), them.State(), n);
    }

    /** Counts exactly when TriesIllusion says so, and then leaves IllusionTried. */
    method IllusionGuess(me: DuelSide, them: DuelSide, guess: Word, now: Time) returns (colors: Option<seq<Color>>)
      requires Valid() && Pair(me, them)
      modifies me`fx
      ensures Valid()
      ensures colors.Some? <==> ending.None? && TriesIllusion(old(me.State()), guess, dictionary, now)
      ensures me.State() == if colors.Some? then IllusionTried(old(me.State()), guess) else old(me.State())
      ensures colors.Some? ==> (Solves(colors.value) <==> Upper(guess) == old(me.fx.illusion).value.word)
      ensures ending.None? ==> KeepsRows(old(me.State()), me.State()) && KeepsApart(old(me.State()), me.State())
    {
      hide SideOk, Watches, AccountOk, Colors, Solves, Letters, EyesDistinct, DuelOk, KeepsRows, KeepsApart;
      KeepsSame(me.State());
      if ending.Some? || me.fx.illusion.None? || now < me.fx.stunnedUntil {
        return None;
      }
      var ill := me.fx.illusion.value;
      var scored := Score(guess, ill.word, dictionary);
      if !scored.valid {
        return None;
      }
      ghost var me0 := me.State();
      DuelOkSwap(a.State(), b.State(), n);
      FairIsColors(Upper(guess), ill.word, scored.colors);
      IllusionWordOk(me0, them.State(), n);
      SolvesExactly(Upper(guess), ill.word);
      var won := Solves(scored.colors);
      if won || ill.guesses + 1 >= ILLUSION_GUESSES {
        me.fx := me.fx.(illusion := None);
        if !won {
          var _ := me.LoseEnergy(ILLUSION_ENERGY);
        }
      } else {
        me.fx := me.fx.(illusion := Some(Illusion(ill.word, ill.guesses + 1)));
      }
      IllusionKeeps(me0, them.State(), guess, n);
      DuelOkSwap(me.State(), them.State(), n);
      return Some(scored.colors);
    }

    // ----- Time

    /** A missile reaches its target. */
    method LandMissile(target: DuelSide)
      modifies target`fx, target`rows
      ensures target.State() == MissileLanded(old(target.State()))
    {
      var hit := Hostile(target);
      if hit {
        var _ := target.LoseEnergy(MISSILE_ENERGY);
        if target.State().UnusedRows() >= 2 {
          target.rows := target.rows - 1;
        }
      }
    }

    /** Each missile that is due lands once; the others fly on. */
    method LandMissiles(s: DuelSide, now: Time)
      requires 0 <= s.fx.energy
      modifies s`fx, s`rows
      ensures s.State() == Landed(old(s.State()), now)
    {
      ghost var s0 := s.State();
      var missiles := s.fx.missiles;
      var flying := [];
      assert missiles[..0] == [];
      for i := 0 to |missiles|
        invariant s.State() == Struck(s0, DueCount(missiles[..i], now))
        invariant flying == Flying(missiles[..i], now)
      {
        assert missiles[..i + 1][..i] == missiles[..i];
        StruckOnce(s0, DueCount(missiles[..i], now));
        if now < missiles[i] {
          flying := flying + [missiles[i]];
        } else {
          LandMissile(s);
        }
      }
      assert missiles[..|missiles|] == missiles;
      s.fx := s.fx.(missiles := flying);
    }

    /** One side's share of a tick. */
    method TickSide(s: DuelSide, other: DuelSide, now: Time)
      requires s != other && 0 <= s.fx.energy
      requires EyesOk(s.fx.eyes, other.guesses, other.fx.destroyed) && Shaped(other.guesses)
      modifies s`fx, s`rows
      ensures s.State() == WithEyes(Ticked(old(s.State()), 0, now), s.fx.eyes)
      ensures EyesAimed(EyeDue, old(s.fx.eyes), s.fx.eyes, other.guesses, other.fx.destroyed, now)
    {
      hide EyesAimed, EyesOk, Shaped, Struck, DueCount, Flying;
      if s.fx.stunnedUntil != ZERO && s.fx.stunnedUntil <= now {
        s.fx := s.fx.(stunnedUntil := ZERO);
      }
      if s.fx.silencedUntil != ZERO && s.fx.silencedUntil <= now {
        s.fx := s.fx.(silencedUntil := ZERO);
      }
      LandMissiles(s, now);
      ghost var landed := s.State();
      StruckEyes(old(s.State()), now);
      AimEyes(EyeDue, s, other, now);
      assert s.State() == WithEyes(landed, s.fx.eyes);
    }

    /** The energy both sides are due, one interval at a time. */
    method CatchUp(now: Time) returns (gained: nat)
      requires a != b
      modifies a`fx, b`fx, this`nextEnergy
      ensures gained == DueEnergy(old(nextEnergy), now)
      ensures a.fx == old(a.fx).(energy := old(a.fx.energy) + gained)
      ensures b.fx == old(b.fx).(energy := old(b.fx.energy) + gained)
      ensures Clock(a.fx.energy, nextEnergy) == ClockAt(Clock(old(a.fx.energy), old(nextEnergy)), now)
      ensures now < nextEnergy
    {
      gained := 0;
      while nextEnergy <= now
        invariant nextEnergy == old(nextEnergy) + gained * ENERGY_INTERVAL
        invariant gained <= DueEnergy(old(nextEnergy), now)
        invariant a.fx == old(a.fx).(energy := old(a.fx.energy) + gained)
        invariant b.fx == old(b.fx).(energy := old(b.fx.energy) + gained)
        decreases now - nextEnergy
      {
        a.fx := a.fx.(energy := a.fx.energy + 1);
        b.fx := b.fx.(energy := b.fx.energy + 1);
        nextEnergy := nextEnergy + ENERGY_INTERVAL;
        gained := gained + 1;
      }
    }

    /** A duel past its deadline is a draw; any other gets what time brings. */
    method Tick(now: Time)
      requires Valid()
      modifies a, b, this`nextEnergy, this`ending
      ensures Valid() && a.account == old(a.account) && b.account == old(b.account)
      ensures old(ending).Some? ==> ending == old(ending)
      ensures old(ending).None? ==>
                ending == if deadline != ZERO && deadline <= now then Some(Ending(None, TimeUp)) else None
      ensures ending.Some? ==> a.State() == old(a.State()) && b.State() == old(b.State()) && nextEnergy == old(nextEnergy)
      ensures ending.None? ==>
                var gained := DueEnergy(old(nextEnergy), now);
                && nextEnergy == ClockAt(Clock(0, old(nextEnergy)), now).next
                && a.State() == WithEyes(Ticked(old(a.State()), gained, now), a.fx.eyes)
                && b.State() == WithEyes(Ticked(old(b.State()), gained, now), b.fx.eyes)
                && EyesAimed(EyeDue, old(a.fx.eyes), a.fx.eyes, old(b.guesses), old(b.fx.destroyed), now)
                && EyesAimed(EyeDue, old(b.fx.eyes), b.fx.eyes, old(a.guesses), old(a.fx.destroyed), now)
      ensures ending.None? ==> KeepsRows(old(a.State()), a.State()) && KeepsRows(old(b.State()), b.State())
      ensures ending.None? ==> KeepsApart(old(a.State()), a.State()) && KeepsApart(old(b.State()), b.State())
    {
      hide SideOk, Watches, EyesAimed, EyesOk, Shaped, Ticked, DueEnergy, AccountOk, KeepsRows, KeepsApart;
      if ending.Some? {
        return;
      }
      if deadline != ZERO && deadline <= now {
        End(None, TimeUp);
        return;
      }
      ghost var a0, b0 := a.State(), b.State();
      EnergyOfSide(a0, n);
      EnergyOfSide(b0, n);
      DuelBoards(a0, b0, n);
      var gained := CatchUp(now);
      TickedLater(a0, gained, now);
      TickedLater(b0, gained, now);
      TickedShape(a0, gained, now);
      TickedShape(b0, gained, now);
      TickSide(a, b, now);
      TickSide(b, a, now);
      TickKeepsDuel(a0, b0, gained, now, a.State(), b.State(), n);
    }

    // ----- Leaving, and prayers nobody answered

    /** The other side wins. reason: Forfeited or Disconnected. */
    method GiveUp(me: DuelSide, them: DuelSide, reason: EndReason)
      requires Valid() && Pair(me, them)
      modifies this`ending
      ensures Valid()
      ensures ending == if old(ending).None? then Some(Ending(Some(SeatOf(them)), reason)) else old(ending)
    {
      if ending.None? {
        End(Some(SeatOf(them)), reason);
      }
    }

    /** No god answered: the energy comes back, if anybody is still playing. */
    method Unanswered(me: DuelSide, them: DuelSide, cost: nat)
      requires Valid() && Pair(me, them)
      modifies me`fx
      ensures Valid()
      ensures me.State() == if ending.None? then Refunded(old(me.State()), cost) else old(me.State())
      ensures ending.None? ==> KeepsRows(old(me.State()), me.State()) && KeepsApart(old(me.State()), me.State())
    {
      hide SideOk, Watches, AccountOk;
      if ending.None? {
        DuelOkSwap(a.State(), b.State(), n);
        RefundKeeps(me.State(), them.State(), cost, n);
        DuelOkSwap(Refunded(me.State(), cost), them.State(), n);
        me.fx := me.fx.(energy := me.fx.energy + cost);
      }
    }

    // ----- A whole duel

    method StepGuess(s: Seat, guess: Word, now: Time) returns (t: Turn)
      requires Valid()
      modifies this`ending, a, b
      ensures Valid() && t.command == Guess(s, guess) && t.now == now && t.before == old(OnTable()) && t.after == OnTable()
      ensures Lawful(t, Rules()) && RowsAndEyesKept(t)
      ensures AccountsKept(t, old(a.account), old(b.account), a.account, b.account)
    {
      hide SideOk, DuelOk, MayCast, CastEffect, GuessEffect, ReshapeEffect, FateEffect, EyesAimed, Ticked, AccountOk, KeepsRows, KeepsApart, MayCollide, LetterPay, BoardKept, Guessed, TriesIllusion, IllusionTried, Offerable, RecordedRow, DueEnergy, EndingOf;
      var before := OnTable();
      KeepsSame(a.State());
      KeepsSame(b.State());
      var r := DuelGuess(Mine(s), Mine(Facing(s)), guess, now);
      t := Turn(Guess(s, guess), now, OfGuess(r), before, OnTable());
    }

    method StepCast(s: Seat, req: Request, heard: bool, now: Time) returns (t: Turn)
      requires Valid()
      modifies a, b, this`deadline, this`nextEnergy
      ensures Valid() && t.command == Command.Cast(s, req, heard) && t.now == now && t.before == old(OnTable()) && t.after == OnTable()
      ensures Lawful(t, Rules()) && RowsAndEyesKept(t)
      ensures AccountsKept(t, old(a.account), old(b.account), a.account, b.account)
    {
      hide SideOk, DuelOk, MayCast, CastEffect, GuessEffect, ReshapeEffect, FateEffect, EyesAimed, Ticked, AccountOk, KeepsRows, KeepsApart, MayCollide, LetterPay, BoardKept, Guessed, GuessCounts, TriesIllusion, IllusionTried, Offerable, RecordedRow, DueEnergy, EndingOf, FateDeadline, FateEnergyClock, WipedAccount, Opened, Refunded, Spent, Booked, EntryOf, FateAccount;
      var before := OnTable();
      KeepsSame(a.State());
      KeepsSame(b.State());
      var r := CastAbility(Mine(s), Mine(Facing(s)), req, now, heard);
      t := Turn(Command.Cast(s, req, heard), now, OfCast(r), before, OnTable());
      CastBooked(t, First, old(a.account));
      CastBooked(t, Second, old(b.account));
    }

    method StepPick(s: Seat, word: Word, now: Time) returns (t: Turn)
      requires Valid()
      modifies a, b
      ensures Valid() && t.command == Pick(s, word) && t.now == now && t.before == old(OnTable()) && t.after == OnTable()
      ensures Lawful(t, Rules()) && RowsAndEyesKept(t)
      ensures AccountsKept(t, old(a.account), old(b.account), a.account, b.account)
    {
      hide SideOk, DuelOk, MayCast, CastEffect, GuessEffect, ReshapeEffect, FateEffect, EyesAimed, Ticked, AccountOk, KeepsRows, KeepsApart, MayCollide, LetterPay, BoardKept, Guessed, GuessCounts, TriesIllusion, IllusionTried, Offerable, RecordedRow, DueEnergy, EndingOf;
      var before := OnTable();
      KeepsSame(a.State());
      KeepsSame(b.State());
      var done := ReshapeReality(Mine(s), Mine(Facing(s)), word, now);
      t := Turn(Pick(s, word), now, OfPick(done), before, OnTable());
    }

    method StepOther(c: Command, now: Time) returns (t: Turn)
      requires Valid() && !c.Guess? && !c.Cast? && !c.Pick?
      modifies this`nextEnergy, this`ending, a, b
      ensures Valid() && t.command == c && t.now == now && t.before == old(OnTable()) && t.after == OnTable()
      ensures Lawful(t, Rules()) && RowsAndEyesKept(t)
      ensures AccountsKept(t, old(a.account), old(b.account), a.account, b.account)
    {
      hide SideOk, DuelOk, MayCast, CastEffect, GuessEffect, ReshapeEffect, FateEffect, EyesAimed, Ticked, AccountOk, KeepsRows, KeepsApart, MayCollide, LetterPay, BoardKept, Guessed, GuessCounts, IllusionTried, Offerable, RecordedRow, DueEnergy, EndingOf;
      var before := OnTable();
      KeepsSame(a.State());
      KeepsSame(b.State());
      var reply := NoReply;
      match c {
        case InIllusion(s, guess) =>
          var colors := IllusionGuess(Mine(s), Mine(Facing(s)), guess, now);
          reply := OfIllusion(colors);
        case NoAnswer(s, cost) => Unanswered(Mine(s), Mine(Facing(s)), cost);
        case GivesUp(s, reason) => GiveUp(Mine(s), Mine(Facing(s)), reason);
        case Tick => this.Tick(now);
      }
      t := Turn(c, now, reply, before, OnTable());
    }

    method Dispatch(c: Command, now: Time) returns (t: Turn)
      requires Valid()
      modifies this, a, b
      ensures Valid() && t.command == c && t.now == now && t.before == old(OnTable()) && t.after == OnTable()
      ensures Lawful(t, Rules()) && RowsAndEyesKept(t)
      ensures AccountsKept(t, old(a.account), old(b.account), a.account, b.account)
    {
      hide Valid, Lawful, RowsAndEyesKept, AccountsKept;
      match c
      case Guess(s, guess) => t := StepGuess(s, guess, now);
      case Cast(s, req, heard) => t := StepCast(s, req, heard, now);
      case Pick(s, word) => t := StepPick(s, word, now);
      case InIllusion(_, _) => t := StepOther(c, now);
      case NoAnswer(_, _) => t := StepOther(c, now);
      case GivesUp(_, _) => t := StepOther(c, now);
      case Tick => t := StepOther(c, now);
    }

    /** Carries out one command, by the rules, and keeps what the turn promises. */
    method Step(c: Command, now: Time) returns (t: Turn)
      requires Valid()
      modifies this, a, b
      ensures Valid() && t.command == c && t.now == now && t.before == old(OnTable()) && t.after == OnTable()
      ensures TurnOk(t, Rules())
      ensures AccountsKept(t, old(a.account), old(b.account), a.account, b.account)
    {
      hide SideOk, Watches, AccountOk, Lawful, KeepsRows, KeepsApart, MayCollide, BoardKept, AccountsKept, EntryOf;
      assert PuzzleOk();
      t := Dispatch(c, now);
      StaysOver(t, Rules());
      if ending.None? {
        TurnKeepsBoards(t, Rules(), First);
        TurnKeepsBoards(t, Rules(), Second);
      }
    }

    /** Carries out commands in the order they come, and returns the history that makes.
        Every turn answers its command by the rules and does what they say; the duel stays
        consistent; the promises to either side are kept; and what letters paid, read off
        the turns, is within what the word is worth since it was set or the slate wiped, and
        within that much once more for every wipe since it was set. */
    method Play(commands: seq<(Command, Time)>) returns (log: seq<Turn>)
      requires Valid()
      modifies this, a, b
      ensures Valid()
      ensures |log| == |commands| && forall k | 0 <= k < |log| :: log[k].command == commands[k].0 && log[k].now == commands[k].1
      ensures History(log, Rules(), old(OnTable()), OnTable())
      ensures ending.None? ==> Promises(log, First, old(a.State()), a.State()) && Promises(log, Second, old(b.State()), b.State())
      ensures old(a.account) == Opened() ==> WithinWorth(log, First, a.word)
      ensures old(b.account) == Opened() ==> WithinWorth(log, Second, b.word)
    {
      hide SideOk, DuelOk, AccountOk, TurnOk, EntryOf, Booked, Books, History, Promises, WithinWorth;
      log := [];
      HistoryStarts(Rules(), OnTable());
      BooksStart(a.account, First);
      BooksStart(b.account, Second);
      for i := 0 to |commands|
        invariant Valid() && |log| == i
        invariant forall k | 0 <= k < i :: log[k].command == commands[k].0 && log[k].now == commands[k].1
        invariant History(log, Rules(), old(OnTable()), OnTable())
        invariant a.account == Books(old(a.account), log, First) && b.account == Books(old(b.account), log, Second)
      {
        var t := Step(commands[i].0, commands[i].1);
        HistoryGrows(log, Rules(), old(OnTable()), t);
        BooksGrow(old(a.account), log, t, First);
        BooksGrow(old(b.account), log, t, Second);
        log := log + [t];
      }
      BooksBound(a, log, First, old(a.account));
      BooksBound(b, log, Second, old(b.account));
      if ending.None? {
        HistoryKeeps(log, Rules(), old(OnTable()), OnTable(), First);
        HistoryKeeps(log, Rules(), old(OnTable()), OnTable(), Second);
      }
    }
  }

  /** Nobody but a guesser runs out of rows; no eyes meet unless they may. */
  ghost predicate RowsAndEyesKept(t: Turn) {
    !t.Over() ==>
      && (!t.GuessOf(First) ==> KeepsRows(t.before.a, t.after.a))
      && (!t.GuessOf(Second) ==> KeepsRows(t.before.b, t.after.b))
      && (!t.MayMeet(First) ==> KeepsApart(t.before.a, t.after.a))
      && (!t.MayMeet(Second) ==> KeepsApart(t.before.b, t.after.b))
  }

  /** A cast moves accounts as its fate does, either side's. */
  lemma CastBooked(t: Turn, s: Seat, acc: Account)
    requires t.command.Cast? && t.reply.OfCast?
    ensures Booked(acc, EntryOf(t, s)) == FateAccount(if t.reply.cast.Used? then t.reply.cast.fate else None, acc)
  {
  }

  /** A duel that is over stays so. */
  lemma StaysOver(t: Turn, p: Puzzle)
    requires Lawful(t, p)
    ensures t.before.ending.Some? ==> t.Over()
  {
    hide GuessEffect, CastEffect, FateEffect, ReshapeEffect, TickedTable, Offerable, GuessPlayed, MayCast;
  }

  /** Both accounts follow the turn's entries. */
  predicate AccountsKept(t: Turn, accA: Account, accB: Account, accA': Account, accB': Account) {
    accA' == Booked(accA, EntryOf(t, First)) && accB' == Booked(accB, EntryOf(t, Second))
  }

  lemma BooksStart(acc: Account, s: Seat)
    ensures Books(acc, [], s) == acc
  {
  }

  /** Letters never paid more than the word is worth, once and once more for every wipe. */
  predicate WithinWorth(log: seq<Turn>, s: Seat, word: Word) {
    && PaidSinceReset(log, s) <= MostLetterEnergy(word)
    && PaidSinceWord(log, s) <= (1 + WipesSinceWord(log, s)) * MostLetterEnergy(word)
  }

  lemma BooksBound(side: DuelSide, log: seq<Turn>, s: Seat, acc: Account)
    requires side.Ledger() && side.account == Books(acc, log, s)
    ensures acc == Opened() ==> WithinWorth(log, s, side.word)
  {
    BooksAddUp(log, s);
    AccountBounds(side.account, side.word, side.fx.greens, side.fx.found);
  }

  /** Knowledge untouched. */
  predicate SameKnowledge(from: SideEffects, to: SideEffects) {
    to.greens == from.greens && to.found == from.found
  }

  lemma SideWords(s: Side, n: nat)
    requires SideOk(s, n)
    ensures WordOk(s.word, n) && WordsOk(s.guesses, n) && |s.fx.greens| == n
    ensures forall r | 0 <= r < |s.guesses| :: |s.guesses[r].colors| == n
  {
    forall r | 0 <= r < |s.guesses| ensures WordOk(s.guesses[r].word, n) && |s.guesses[r].colors| == n {
      assert RowOk(s.guesses[r], s.word);
    }
  }

  /** The parts of what follows a guess, put together. */
  lemma AfterGuessParts(g: Side, them: Side, row: GuessRow, now: Time, me': Side, provoked: Side, them': Side)
    requires |row.word| == |row.colors| && me' == WithEyes(Paid(g, row), me'.fx.eyes)
    requires if FindsGreen(g, row) && g.kind == Wizard && g.fx.eyes != []
             then EyesAimed(EyeAll, g.fx.eyes, me'.fx.eyes, them.guesses, them.fx.destroyed, now)
             else me'.fx.eyes == g.fx.eyes
    requires if FindsGreen(g, row) then Provoked(g.kind, them, provoked, now) else provoked == them
    requires provoked.fx.eyes == them.fx.eyes && them' == WithEyes(provoked, them'.fx.eyes)
    requires EyesAimed(EyeIdle, them.fx.eyes, them'.fx.eyes, me'.guesses, me'.fx.destroyed, now)
    ensures AfterGuess(g, them, row, now, me', them')
  {
    hide EyesAimed, Provoked, FindsGreen, LearnedGreens, LearnedFound, Gain;
  }

  /** Both boards are in shape and all eyes are on letters they may see. */
  lemma DuelBoards(a: Side, b: Side, n: nat)
    requires DuelOk(a, b, n)
    ensures EyesOk(a.fx.eyes, b.guesses, b.fx.destroyed) && EyesOk(b.fx.eyes, a.guesses, a.fx.destroyed)
    ensures Shaped(a.guesses) && Shaped(b.guesses)
    ensures |a.fx.greens| == |a.word| == n > 0 && |b.fx.greens| == |b.word| == n
  {
    SideWords(a, n);
    SideWords(b, n);
    hide RowsOk, CoversGuesses, DestroyedOk, TricksOk, KeysOk, EyesOk;
  }

  /** ... also once a guess is on the board. */
  lemma GuessedBoards(me: Side, them: Side, up: Word, n: nat)
    requires DuelOk(me, them, n) && WordOk(up, n)
    ensures var g := Guessed(me, up);
            && EyesOk(g.fx.eyes, them.guesses, them.fx.destroyed) && Shaped(them.guesses)
            && EyesOk(them.fx.eyes, g.guesses, g.fx.destroyed) && Shaped(g.guesses)
  {
    var row := RecordedRow(me, up);
    DuelBoards(me, them, n);
    RecordedRowOk(me, up, n);
    RowLengths(row, me.word);
    AppendKeepsBoard(me.word, me.guesses, me.fx.destroyed, them.fx.eyes, row);
    hide RowsOk, RowOk, KnowledgeOk, DestroyedOk, TricksOk, KeysOk, EyesOk, RecordedRow, Elo.Closeness;
  }

  lemma MendKeepsShape(guesses: seq<GuessRow>, row: nat)
    requires row < |guesses| && Shaped(guesses)
    ensures Shaped(Without(guesses, row))
  {
    forall k | 0 <= k < |Without(guesses, row)|
      ensures |Without(guesses, row)[k].word| == |Without(guesses, row)[k].colors|
    {
      OtherRow(guesses, row, if k < row then k else k + 1);
    }
  }

  /** What the rules of an ability give the code that carries it out. */
  lemma CastFacts(id: Ability, me: Side, them: Side, req: Request, n: nat)
    requires DuelOk(me, them, n) && CanCast(id, me, them, req)
    ensures |me.word| == n && |them.word| == n
    ensures forall k | 0 <= k < |me.fx.eyes| && me.fx.eyes[k].on :: OnBoard(them.guesses, me.fx.eyes[k].at)
    ensures EyesOk(me.fx.eyes, them.guesses, them.fx.destroyed) && EyesOk(them.fx.eyes, me.guesses, me.fx.destroyed)
    ensures Shaped(me.guesses) && Shaped(them.guesses) && |me.fx.greens| == |me.word| > 0
    ensures id.Scry? ==> |req.letter| == 1
    ensures id.Mend? ==> 0 <= req.row < |me.guesses|
    ensures id.Pickpocket? ==> 0 <= req.row < |them.guesses| && 0 <= req.col < |them.guesses[req.row].word|
  {
    EyesInRange(me, them);
    DuelBoards(me, them, n);
    if id.Pickpocket? {
      assert RowOk(them.guesses[req.row], them.word);
      RowLengths(them.guesses[req.row], them.word);
    }
  }

  lemma RescoredWord(from: Side, to: Side, w: Word)
    requires Rescored(from, to, w)
    ensures to.word == w
  {
  }

  /** A new word treats both sides alike. */
  lemma NewWordEitherWay(now: Time, maxGuesses: int, a: Side, b: Side, a': Side, b': Side)
    requires FateEffect(NewWord, now, maxGuesses, a, b, a', b') && |a.word| == |b.word|
    ensures FateEffect(NewWord, now, maxGuesses, b, a, b', a')
  {
    hide Untaken, Rescored, EyesAimed, WordOk;
    RescoredWord(b, b', a'.word);
  }

  lemma FateEitherWay(fate: Fate, req: Request, now: Time, maxGuesses: int, me: Side, them: Side, me': Side, them': Side)
    requires |me.word| == |them.word|
    requires || FateEffect(fate, now, maxGuesses, me, them, me', them')
             || FateEffect(fate, now, maxGuesses, them, me, them', me')
    ensures CastEffect(DivineIntervention, req, now, maxGuesses, me, them, me', them')
    ensures FateEffect(fate, now, maxGuesses, me, them, me', them')
  {
    hide Untaken, Rescored, EyesAimed, WordOk;
    if !FateEffect(fate, now, maxGuesses, me, them, me', them') && fate == NewWord {
      NewWordEitherWay(now, maxGuesses, them, me, them', me');
    }
    assert FateEffect(fate, now, maxGuesses, me, them, me', them');
  }

  lemma SpentRows(me: Side, cost: int, to: Side)
    ensures KeepsRows(Spent(me, cost), to) <==> KeepsRows(me, to)
    ensures KeepsApart(Spent(me, cost), to) <==> KeepsApart(me, to)
  {
  }

  lemma KeepsSame(s: Side)
    ensures KeepsRows(s, s) && KeepsApart(s, s)
  {
  }

  lemma OfferKeeps(me: Side, them: Side, words: seq<Word>, n: nat)
    requires DuelOk(me, them, n) && Offerable(them, words, n)
    ensures var me' := me.(fx := me.fx.(reshape := words));
            DuelOk(me', them, n) && KeepsRows(me, me') && KeepsRows(them, them)
  {
    hide RowsOk, KnowledgeOk, DestroyedOk, KeysOk, EyesOk, WordOk;
  }

  lemma SpendKeeps(id: Ability, me: Side, them: Side, req: Request, n: nat)
    requires DuelOk(me, them, n) && CanCast(id, me, them, req) && me.fx.energy >= Cost(id)
    ensures DuelOk(Spent(me, Cost(id)), them, n) && CanCast(id, Spent(me, Cost(id)), them, req)
  {
    hide RowsOk, KnowledgeOk, DestroyedOk, TricksOk, KeysOk, EyesOk;
  }

  lemma NewWordFate(w: Word, now: Time, maxGuesses: int, a: Side, b: Side, a1: Side, b1: Side, eyesA: seq<Eye>, eyesB: seq<Eye>)
    requires WordOk(w, |a.word|) && (w == a.word || (Untaken(a, w) && Untaken(b, w)))
    requires Rescored(a, a1, w) && Rescored(b, b1, w)
    requires EyesAimed(EyeLost, a.fx.eyes, eyesA, b1.guesses, b1.fx.destroyed, now)
    requires EyesAimed(EyeLost, b.fx.eyes, eyesB, a1.guesses, a1.fx.destroyed, now)
    ensures FateEffect(NewWord, now, maxGuesses, a, b, WithEyes(a1, eyesA), WithEyes(b1, eyesB))
  {
    hide Untaken, ExactlyShown, RescoredRows, EyesAimed, WordOk, WordsOk;
  }

  lemma EyesInRange(watcher: Side, target: Side)
    requires Watches(watcher, target)
    ensures forall k | 0 <= k < |watcher.fx.eyes| && watcher.fx.eyes[k].on :: OnBoard(target.guesses, watcher.fx.eyes[k].at)
  {
  }

  /** Rescoring keeps the shape of the board. */
  lemma RescoredTiles(guesses: seq<GuessRow>, w: Word)
    requires WordsOk(guesses, |w|)
    requires forall r | 0 <= r < |guesses| :: |guesses[r].colors| == |w|
    ensures forall t :: OnBoard(guesses, t) ==> OnBoard(RescoredRows(guesses, w), t)
    ensures Shaped(RescoredRows(guesses, w))
  {
  }

  // ----- Small facts about picks, illusions and ticks

  lemma ReshapePaidKeeps(me: Side, them: Side, w: Word, n: nat)
    requires DuelOk(me, them, n) && w in me.fx.reshape && me.fx.energy >= Cost(Ability.ReshapeReality)
    ensures DuelOk(ReshapePaid(me), them, n) && WordOk(w, n)
    ensures SideOk(them, n) && Watches(ReshapePaid(me), them)
  {
    hide RowsOk, KnowledgeOk, DestroyedOk, KeysOk, EyesOk, PatternOk, WordOk;
  }

  lemma ReshapePaidSame(me: Side, to: Side)
    requires to.guesses == me.guesses && to.rows == me.rows && to.solved == me.solved
    ensures KeepsRows(me, to)
    ensures KeepsApart(me, to) <==> KeepsApart(ReshapePaid(me), to)
  {
  }

  lemma PickTurned(from: Side, to: Side, w: Word)
    requires Rescored(from, to, w) && to.fx.eyes == from.fx.eyes
    ensures KeepsApart(from, to)
  {
    hide Rescored;
  }

  lemma IllusionWordOk(me: Side, them: Side, n: nat)
    requires (DuelOk(me, them, n) || DuelOk(them, me, n)) && me.fx.illusion.Some?
    ensures me.fx.illusion.value.word != []
  {
    hide RowsOk, KnowledgeOk, DestroyedOk, KeysOk, EyesOk, PatternOk, WordOk;
  }

  lemma IllusionKeeps(me: Side, them: Side, guess: Word, n: nat)
    requires DuelOk(me, them, n) && me.fx.illusion.Some?
    ensures DuelOk(IllusionTried(me, guess), them, n)
    ensures KeepsRows(me, IllusionTried(me, guess)) && KeepsApart(me, IllusionTried(me, guess))
  {
    hide RowsOk, KnowledgeOk, DestroyedOk, KeysOk, EyesOk, PatternOk, WordOk;
  }

  lemma RefundKeeps(me: Side, them: Side, cost: nat, n: nat)
    requires DuelOk(me, them, n)
    ensures DuelOk(Refunded(me, cost), them, n)
    ensures KeepsRows(me, Refunded(me, cost)) && KeepsApart(me, Refunded(me, cost))
  {
    hide RowsOk, KnowledgeOk, DestroyedOk, TricksOk, KeysOk, EyesOk;
  }

  lemma EnergyOfSide(s: Side, n: nat)
    requires SideOk(s, n)
    ensures 0 <= s.fx.energy
  {
  }

  lemma StruckEyes(s: Side, now: Time)
    ensures Ticked(s, 0, now).fx.eyes == s.fx.eyes
  {
  }

  /** Energy first, the rest later, is one tick. */
  lemma TickedLater(s: Side, gained: nat, now: Time)
    ensures Ticked(s.(fx := s.fx.(energy := s.fx.energy + gained)), 0, now) == Ticked(s, gained, now)
  {
  }

  lemma TickedShape(s: Side, gained: nat, now: Time)
    ensures var t := Ticked(s, gained, now);
            && t.word == s.word && t.guesses == s.guesses && t.fx.destroyed == s.fx.destroyed
            && t.fx.greens == s.fx.greens && t.fx.found == s.fx.found
  {
  }
}
