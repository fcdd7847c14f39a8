/** What a duel promises over its whole history, side by side: each promise is kept by
every turn but those of one exact kind, and so by every history without them. */
module DuelHistory {
  import opened Wordle
  import opened Boards
  import opened DuelSides
  import opened DuelRules
  import opened DuelSafety
  import opened DuelTurns
  import Elo

  // ----- Boards, and what turns do to them

  ghost predicate Exact(s: Side) {
    ExactlyShown(s.guesses, s.fx.greens, s.fx.found, s.best)
  }

  /** Some row of the board is all green. */
  predicate ShowsSolve(s: Side) {
    exists r | 0 <= r < |s.guesses| :: Solves(s.guesses[r].colors)
  }

  predicate HasGuessed(s: Side, w: Word) {
    exists r | 0 <= r < |s.guesses| :: s.guesses[r].word == w
  }

  predicate SameBoard(from: Side, to: Side) {
    to.guesses == from.guesses && to.fx.greens == from.fx.greens && to.fx.found == from.fx.found && to.best == from.best
  }

  /** The turn sets s's word to one s has guessed: the opponent's pick, or a fate. */
  predicate SetsGuessed(t: Turn, s: Seat) {
    && EntryOf(t, s) == WordSet
    && HasGuessed(t.Before(s), if t.command.Pick? then Upper(t.command.word) else t.After(s).word)
  }

  /** s mends a guess that showed something the others don't. */
  ghost predicate Forgets(t: Turn, s: Seat) {
    && t.command.Cast? && t.command.side == s && t.reply == OfCast(Used(Mend, None))
    && 0 <= t.command.req.row < |t.Before(s).guesses| && !ShowsNothingNew(t.Before(s).guesses, t.command.req.row)
  }

  lemma SameBoardKeeps(from: Side, to: Side)
    requires SameBoard(from, to)
    ensures (Exact(to) <==> Exact(from)) && (ShowsSolve(to) <==> ShowsSolve(from))
  {
    hide ExactlyShown, Solves;
  }

  /** A rescored board knows what it shows, and shows a solve exactly when the word was
      guessed before. */
  lemma RescoredBoard(from: Side, to: Side, w: Word)
    requires Rescored(from, to, w) && w != []
    ensures Exact(to) && (ShowsSolve(to) <==> HasGuessed(from, w))
  {
    ReshapeShowsSolve(from, to, w);
    hide ExactlyShown, Solves;
  }

  lemma WipedBoard(s: Side, maxGuesses: int)
    ensures Exact(Wiped(s, maxGuesses)) && !ShowsSolve(Wiped(s, maxGuesses))
  {
    NothingKnown(s.word);
  }

  lemma GuessedBoard(me: Side, them: Side, up: Word, now: Time, me': Side, them': Side, n: nat)
    requires SideOk(me, n) && WordOk(up, n) && up != me.word && GuessEffect(me, them, up, now, me', them')
    ensures SameBoard(them, them')
    ensures (Exact(me) ==> Exact(me')) && (ShowsSolve(me') <==> ShowsSolve(me))
  {
    var row := RecordedRow(me, up);
    RecordedRowOk(me, up, n);
    GuessBoards(me, them, up, now, me', them');
    assert me'.guesses[|me.guesses|] == row;
    forall r | 0 <= r < |me.guesses| ensures me'.guesses[r] == me.guesses[r] {
    }
    if Exact(me) {
      ExactStep(me.word, me.guesses, me.fx.greens, me.fx.found, me.best, row);
    }
    hide SideOk, ExactlyShown, Solves, GuessEffect, RecordedRow, RowOk, LearnedGreens, LearnedFound;
  }

  lemma GuessBoards(me: Side, them: Side, up: Word, now: Time, me': Side, them': Side)
    requires GuessEffect(me, them, up, now, me', them')
    ensures var row := RecordedRow(me, up);
            var c := Elo.Closeness(row.colors);
            && |row.word| == |row.colors|
            && me'.guesses == me.guesses + [row] && me'.best == (if me.best < c then c else me.best)
            && me'.fx.greens == LearnedGreens(me.fx.greens, row.colors)
            && me'.fx.found == LearnedFound(me.fx.greens, me.fx.found, row)
    ensures SameBoard(them, them')
  {
    hide EyesAimed, RecordedRow, LearnedGreens, LearnedFound, Gain, Elo.Closeness;
  }

  lemma MendBoards(req: Request, now: Time, maxGuesses: int, me: Side, them: Side, me': Side, them': Side)
    requires CastEffect(Mend, req, now, maxGuesses, me, them, me', them')
    ensures SameBoard(them, them') && 0 <= req.row < |me.guesses| && me'.guesses == Without(me.guesses, req.row)
    ensures me'.fx.greens == me.fx.greens && me'.fx.found == me.fx.found && me'.best == me.best
  {
    hide EyesMended, MendedDestroyed, Without;
  }

  predicate OfKnight(id: Ability) {
    id.Slash? || id.ShieldsUp? || id.Determination? || id.PommelStrike? || id.Cripple?
  }

  predicate OfWizard(id: Ability) {
    id.Scry? || id.SeeingEye? || id.MagicMissile? || id.CastIllusion? || id.ReshapeReality?
  }

  lemma KnightBoards(id: Ability, req: Request, now: Time, maxGuesses: int, me: Side, them: Side, me': Side, them': Side)
    requires CastEffect(id, req, now, maxGuesses, me, them, me', them') && OfKnight(id)
    ensures SameBoard(me, me') && SameBoard(them, them')
  {
    hide EyesAimed;
  }

  lemma WizardBoards(id: Ability, req: Request, now: Time, maxGuesses: int, me: Side, them: Side, me': Side, them': Side)
    requires CastEffect(id, req, now, maxGuesses, me, them, me', them') && OfWizard(id)
    ensures SameBoard(me, me') && SameBoard(them, them')
  {
    hide EyesAimed, Aimed;
  }

  lemma OtherBoards(id: Ability, req: Request, now: Time, maxGuesses: int, me: Side, them: Side, me': Side, them': Side)
    requires CastEffect(id, req, now, maxGuesses, me, them, me', them')
    requires !OfKnight(id) && !OfWizard(id) && id != Mend && id != DivineIntervention
    ensures SameBoard(me, me') && SameBoard(them, them')
  {
    hide EyesAimed, Permutation;
  }

  /** Only Mend and the gods change a board. */
  lemma CastBoards(id: Ability, req: Request, now: Time, maxGuesses: int, me: Side, them: Side, me': Side, them': Side)
    requires CastEffect(id, req, now, maxGuesses, me, them, me', them') && id != DivineIntervention
    ensures SameBoard(them, them')
    ensures if id == Mend then
              && 0 <= req.row < |me.guesses| && me'.guesses == Without(me.guesses, req.row)
              && me'.fx.greens == me.fx.greens && me'.fx.found == me.fx.found && me'.best == me.best
            else SameBoard(me, me')
  {
    hide CastEffect, SameBoard, OfKnight, OfWizard, Without;
    if id == Mend {
      MendBoards(req, now, maxGuesses, me, them, me', them');
    } else if OfKnight(id) {
      KnightBoards(id, req, now, maxGuesses, me, them, me', them');
    } else if OfWizard(id) {
      WizardBoards(id, req, now, maxGuesses, me, them, me', them');
    } else {
      OtherBoards(id, req, now, maxGuesses, me, them, me', them');
    }
  }

  lemma MendedBoard(me: Side, me': Side, row: nat, n: nat)
    requires SideOk(me, n) && row < |me.guesses| && me'.guesses == Without(me.guesses, row)
    requires me'.fx.greens == me.fx.greens && me'.fx.found == me.fx.found && me'.best == me.best
    ensures Exact(me) ==> (Exact(me') <==> ShowsNothingNew(me.guesses, row))
    ensures ShowsSolve(me') ==> ShowsSolve(me)
  {
    if Exact(me) {
      MendExactly(me.word, me.guesses, row, me.fx.greens, me.fx.found, me.best);
    }
    hide RowsOk, CoversGuesses, DestroyedOk, TricksOk, KeysOk, ExactlyShown, Solves, ShowsNothingNew;
    if ShowsSolve(me') {
      var k :| 0 <= k < |me'.guesses| && Solves(me'.guesses[k].colors);
      OtherRow(me.guesses, row, if k < row then k else k + 1);
    }
  }

  // ----- Promises

  /** A turn may break a promise to one side only by being of one exact kind. */
  ghost predicate TurnKeeps(t: Turn, s: Seat) {
    && (!t.GuessOf(s) ==> KeepsRows(t.Before(s), t.After(s)))
    && (!t.MayMeet(s) ==> KeepsApart(t.Before(s), t.After(s)))
    && BoardKept(t, s)
  }

  /** What was exactly known stays so but for a Mend that forgets; and a board without an
      all green row gets one exactly when its side's word is set to one it has guessed. */
  ghost predicate BoardKept(t: Turn, s: Seat) {
    && (Exact(t.Before(s)) ==> (Exact(t.After(s)) <==> !Forgets(t, s)))
    && (!ShowsSolve(t.Before(s)) ==> (ShowsSolve(t.After(s)) <==> SetsGuessed(t, s)))
  }

  lemma UnchangedKept(t: Turn, s: Seat)
    requires SameBoard(t.Before(s), t.After(s)) && EntryOf(t, s) != WordSet && !Forgets(t, s)
    ensures BoardKept(t, s)
  {
    hide Exact, ShowsSolve, EntryOf, Forgets, HasGuessed;
    SameBoardKeeps(t.Before(s), t.After(s));
  }

  lemma GuessKept(t: Turn, p: Puzzle, seat: Seat, guess: Word, s: Seat)
    requires t.command == Guess(seat, guess) && LawfulGuess(t, seat, guess, p) && !t.Over()
    requires SideOk(t.Before(seat), p.n) && (forall w | w in p.dictionary :: Letters(w))
    ensures BoardKept(t, s)
  {
    hide SideOk, GuessEffect, Exact, ShowsSolve, Guessed, LetterPay, RecordedRow;
    var me, them, up := t.Before(seat), t.Before(Facing(seat)), Upper(guess);
    if t.reply.guess.Played? {
      KeysOfSide(me, p.n);
      GuessedBoard(me, them, up, t.now, t.After(seat), t.After(Facing(seat)), p.n);
      if s != seat {
        SameBoardKeeps(them, t.After(s));
      }
    } else {
      UnchangedKept(t, s);
    }
  }

  lemma RescoredKept(t: Turn, s: Seat, from: Side, w: Word)
    requires SameBoard(t.Before(s), from) && Rescored(from, t.After(s), w) && w != [] && EntryOf(t, s) == WordSet
    requires w == if t.command.Pick? then Upper(t.command.word) else t.After(s).word
    requires !Forgets(t, s)
    ensures BoardKept(t, s)
  {
    RescoredBoard(from, t.After(s), w);
    hide Rescored, Exact, ShowsSolve, EntryOf, Forgets;
  }

  lemma WipedKept(t: Turn, s: Seat, from: Side, maxGuesses: int)
    requires t.After(s) == Wiped(from, maxGuesses) && EntryOf(t, s) == SlateWiped && !Forgets(t, s)
    ensures BoardKept(t, s)
  {
    WipedBoard(from, maxGuesses);
    hide Exact, ShowsSolve, EntryOf, Forgets, Wiped;
  }

  /** A fate, seen by either side: `from` is the side once the cast is paid for. */
  lemma FateKept(t: Turn, f: Fate, now: Time, maxGuesses: int, me: Side, them: Side, seat: Seat, s: Seat)
    requires FateEffect(f, now, maxGuesses, me, them, t.After(seat), t.After(Facing(seat)))
    requires SameBoard(t.Before(seat), me) && t.Before(Facing(seat)) == them && me.word != []
    requires t.command.Cast? && t.reply == OfCast(Used(DivineIntervention, Some(f)))
    ensures BoardKept(t, s)
  {
    hide Rescored, EyesAimed, Untaken, SameBoard, Wiped, BoardKept;
    assert !Forgets(t, s);
    var from := if s == seat then me else them;
    SameBoardSelf(them);
    match f
    case CleanSlate => WipedKept(t, s, from, maxGuesses);
    case NewWord =>
      var w := t.After(seat).word;
      WordSetTo(them, t.After(Facing(seat)), w);
      RescoredKept(t, s, from, w);
    case SuddenDeath => UnchangedKept(t, s);
    case Revelation => UnchangedKept(t, s);
    case Fortune =>
      SameBoardEnergy(me, them.fx.energy);
      SameBoardEnergy(them, me.fx.energy);
      SameBoardTwice(t.Before(s), from, t.After(s));
      UnchangedKept(t, s);
  }

  lemma SameBoardSelf(s: Side)
    ensures SameBoard(s, s)
  {
  }

  lemma SameBoardEnergy(s: Side, energy: int)
    ensures SameBoard(s, s.(fx := s.fx.(energy := energy)))
  {
  }

  lemma SameBoardTwice(a: Side, b: Side, c: Side)
    requires SameBoard(a, b) && SameBoard(b, c)
    ensures SameBoard(a, c)
  {
  }

  lemma WordSetTo(from: Side, to: Side, w: Word)
    requires Rescored(from, to, w)
    ensures to.word == w
  {
  }

  lemma UsedKept(t: Turn, p: Puzzle, seat: Seat, req: Request, heard: bool, s: Seat)
    requires t.command == Cast(seat, req, heard) && t.reply.OfCast? && t.reply.cast.Used?
    requires CastUses(t, seat, req, heard, t.reply.cast.id, t.reply.cast.fate, p)
    requires SideOk(t.Before(seat), p.n)
    ensures BoardKept(t, s)
  {
    hide CastEffect, FateEffect, BoardKept, SameBoard, SideOk, MendedDestroyed, Without, ShowsNothingNew, Exact, ShowsSolve;
    var id, fate := t.reply.cast.id, t.reply.cast.fate;
    var me, paid, them := t.Before(seat), Spent(t.Before(seat), Cost(t.reply.cast.id)), t.Before(Facing(seat));
    SameBoardEnergy(me, me.fx.energy - Cost(id));
    if fate.Some? {
      WordNotEmpty(me, p.n);
      FateKept(t, fate.value, t.now, p.maxGuesses, paid, them, seat, s);
    } else {
      CastBoards(id, req, t.now, p.maxGuesses, paid, them, t.After(seat), t.After(Facing(seat)));
      if id == Mend && s == seat {
        MendKept(t, p.n, seat);
      } else {
        if s == seat {
          SameBoardTwice(me, paid, t.After(s));
        }
        UnchangedKept(t, s);
      }
    }
  }

  lemma WordNotEmpty(s: Side, n: nat)
    requires SideOk(s, n)
    ensures s.word != []
  {
  }

  lemma MendKept(t: Turn, n: nat, s: Seat)
    requires t.command.Cast? && t.command.side == s && t.reply == OfCast(Used(Mend, None)) && SideOk(t.Before(s), n)
    requires var me, me', row := t.Before(s), t.After(s), t.command.req.row;
             && 0 <= row < |me.guesses| && me'.guesses == Without(me.guesses, row)
             && me'.fx.greens == me.fx.greens && me'.fx.found == me.fx.found && me'.best == me.best
    ensures BoardKept(t, s)
  {
    MendedBoard(t.Before(s), t.After(s), t.command.req.row, n);
    hide SideOk, Exact, ShowsSolve, ShowsNothingNew, Without;
  }

  lemma CastKept(t: Turn, p: Puzzle, seat: Seat, req: Request, heard: bool, s: Seat)
    requires t.command == Cast(seat, req, heard) && LawfulCast(t, seat, req, heard, p) && SideOk(t.Before(seat), p.n)
    ensures BoardKept(t, s)
  {
    hide SideOk, CastUses, MayCast, Offerable, BoardKept, Exact;
    if t.reply.cast.Used? {
      UsedKept(t, p, seat, req, heard, s);
    } else {
      UnchangedKept(t, s);
    }
  }

  lemma PickKept(t: Turn, seat: Seat, word: Word, n: nat, s: Seat)
    requires t.command == Pick(seat, word) && LawfulPick(t, seat, word)
    requires SideOk(t.Before(seat), n)
    ensures BoardKept(t, s)
  {
    hide BoardKept, Rescored, EyesAimed, RowsOk, KnowledgeOk, DestroyedOk, KeysOk, PatternOk;
    if t.reply.done && !t.Before(Facing(seat)).fx.shield && s != seat {
      SameBoardSelf(t.Before(s));
      RescoredKept(t, s, t.Before(s), Upper(word));
    } else {
      UnchangedKept(t, s);
    }
  }

  lemma TickKept(t: Turn, s: Seat)
    requires t.command.Tick? && LawfulTick(t)
    ensures BoardKept(t, s)
  {
    hide BoardKept, EyesAimed, DueEnergy, DueCount, Flying;
    UnchangedKept(t, s);
  }

  /** Every lawful turn that doesn't end the duel keeps what the boards promise. */
  lemma TurnKeepsBoards(t: Turn, p: Puzzle, s: Seat)
    requires Lawful(t, p) && !t.Over() && (forall w | w in p.dictionary :: Letters(w))
    requires SideOk(t.before.a, p.n) && SideOk(t.before.b, p.n)
    ensures BoardKept(t, s)
  {
    hide BoardKept, SideOk, LawfulGuess, LawfulCast, LawfulPick, LawfulTick;
    match t.command
    case Guess(seat, guess) => GuessKept(t, p, seat, guess, s);
    case Cast(seat, req, heard) => CastKept(t, p, seat, req, heard, s);
    case Pick(seat, word) => PickKept(t, seat, word, p.n, s);
    case InIllusion(_, _) => UnchangedKept(t, s);
    case NoAnswer(_, _) => UnchangedKept(t, s);
    case GivesUp(_, _) => UnchangedKept(t, s);
    case Tick => TickKept(t, s);
  }

  // ----- Histories

  /** One turn after the other, from one table to another. */
  ghost predicate Chained(log: seq<Turn>, from: Table, to: Table)
    decreases |log|
  {
    if log == [] then to == from
    else log[|log| - 1].after == to && Chained(log[..|log| - 1], from, log[|log| - 1].before)
  }

  /** Every turn is by the rules, and keeps what it promises unless it ends the duel. */
  ghost predicate TurnOk(t: Turn, p: Puzzle) {
    Lawful(t, p) && (t.before.ending.Some? ==> t.Over()) && (!t.Over() ==> TurnKeeps(t, First) && TurnKeeps(t, Second))
  }

  ghost predicate History(log: seq<Turn>, p: Puzzle, from: Table, to: Table) {
    Chained(log, from, to) && forall k | 0 <= k < |log| :: TurnOk(log[k], p)
  }

  lemma HistoryStarts(p: Puzzle, table: Table)
    ensures History([], p, table, table)
  {
  }

  lemma HistoryGrows(log: seq<Turn>, p: Puzzle, from: Table, t: Turn)
    requires History(log, p, from, t.before) && TurnOk(t, p)
    ensures History(log + [t], p, from, t.after)
  {
    hide TurnOk;
    assert (log + [t])[..|log + [t]| - 1] == log;
  }

  function SideOf(table: Table, s: Seat): Side {
    if s == First then table.a else table.b
  }

  /** What a side can count on over a whole history: it runs out of rows only by its own
      guess; its eyes come to share a letter only by a Mend that may let them; it knows more
      than its guesses show only after a Mend that forgets; and its board shows a solve it
      was not given only once its word was set to one it had guessed. */
  ghost predicate Promises(log: seq<Turn>, s: Seat, from: Side, to: Side) {
    && ((forall k | 0 <= k < |log| :: !log[k].GuessOf(s)) ==> KeepsRows(from, to))
    && ((forall k | 0 <= k < |log| :: !log[k].MayMeet(s)) ==> KeepsApart(from, to))
    && ((forall k | 0 <= k < |log| :: !Forgets(log[k], s)) && Exact(from) ==> Exact(to))
    && ((forall k | 0 <= k < |log| :: !SetsGuessed(log[k], s)) && !ShowsSolve(from) ==> !ShowsSolve(to))
  }

  lemma PromisesGrow(log: seq<Turn>, t: Turn, s: Seat, from: Side)
    requires Promises(log, s, from, t.Before(s)) && TurnKeeps(t, s)
    ensures Promises(log + [t], s, from, t.After(s))
  {
    hide Forgets, SetsGuessed, Exact, ShowsSolve, EyesDistinct, MayCollide;
    var all := log + [t];
    assert all[|log|] == t;
    assert forall k | 0 <= k < |log| :: all[k] == log[k];
  }

  /** The promises, kept by every history of a duel still going on. */
  lemma {:induction false} HistoryKeeps(log: seq<Turn>, p: Puzzle, from: Table, to: Table, s: Seat)
    requires History(log, p, from, to) && to.ending.None?
    ensures Promises(log, s, SideOf(from, s), SideOf(to, s))
    decreases |log|
  {
    hide Promises, TurnKeeps, Lawful;
    if log == [] {
      PromisesStart(SideOf(from, s), s);
    } else {
      var init, last := log[..|log| - 1], log[|log| - 1];
      assert TurnOk(last, p);
      assert History(init, p, from, last.before) by {
        forall k | 0 <= k < |init| ensures TurnOk(init[k], p) {
          assert init[k] == log[k];
        }
      }
      HistoryKeeps(init, p, from, last.before, s);
      PromisesGrow(init, last, s, SideOf(from, s));
      assert init + [last] == log;
    }
  }

  lemma PromisesStart(side: Side, s: Seat)
    ensures Promises([], s, side, side)
  {
  }
}
