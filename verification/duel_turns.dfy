/** What happens in a duel, command by command: a turn is a command, the answer it got,
and the duel before and after. A duel's history is a sequence of turns, and what its
letters paid can be read off it. */
module DuelTurns {
  import opened Wordle
  import opened Boards
  import opened DuelSides
  import opened DuelRules

  datatype EndReason = Solved | OutOfGuesses | Forfeited | Disconnected | TimeUp

  datatype Seat = First | Second

  function Facing(s: Seat): Seat {
    if s == First then Second else First
  }

  /** Nobody wins a draw. */
  datatype Ending = Ending(winner: Option<Seat>, reason: EndReason)

  datatype GuessResult =
    | NotPlaying
    | Stuck
    | Invalid
    | Played(seen: seq<Color>, shown: seq<Color>)

  datatype CastResult = Refused | Offered | Used(id: Ability, fate: Option<Fate>)

  /** What the world may carry out in a duel, and for whom. */
  datatype Command =
    | Guess(side: Seat, guess: Word)
    | Cast(side: Seat, req: Request, heard: bool)
    | Pick(side: Seat, word: Word)
    | InIllusion(side: Seat, guess: Word)
    | NoAnswer(side: Seat, cost: nat)
    | GivesUp(side: Seat, reason: EndReason)
    | Tick

  datatype Reply =
    | OfGuess(guess: GuessResult)
    | OfCast(cast: CastResult)
    | OfPick(done: bool)
    | OfIllusion(colors: Option<seq<Color>>)
    | NoReply

  /** A duel as a value; what it is played on. */
  datatype Table = Table(a: Side, b: Side, nextEnergy: Time, deadline: Time, ending: Option<Ending>)
  datatype Puzzle = Puzzle(n: nat, maxGuesses: nat, dictionary: set<Word>)

  datatype Turn = Turn(command: Command, now: Time, reply: Reply, before: Table, after: Table) {
    function Before(s: Seat): Side { if s == First then before.a else before.b }
    function After(s: Seat): Side { if s == First then after.a else after.b }
    predicate Over() { after.ending.Some? }
    predicate SameClocks() { after.nextEnergy == before.nextEnergy && after.deadline == before.deadline }

    /** One side only changed, if that, and nothing ended. */
    predicate OnlyTouches(s: Seat) {
      SameClocks() && after.ending == before.ending && After(Facing(s)) == Before(Facing(s))
    }

    predicate GuessOf(s: Seat) { command.Guess? && command.side == s }

    /** The other side's Mend may let two of this side's eyes meet. */
    predicate MayMeet(s: Seat) {
      && command.Cast? && command.side != s && reply == OfCast(Used(Mend, None))
      && MayCollide(Before(s).fx.eyes, command.req.row)
    }
  }

  // ----- The rules

  function EndingOf(me: Side, them: Side, up: Word, s: Seat): Option<Ending>
    requires |up| == |me.word|
  {
    if up == me.word then Some(Ending(Some(s), Solved))
    else if Guessed(me, up).Out() && them.Out() then Some(Ending(None, OutOfGuesses))
    else None
  }

  ghost predicate GuessAnswer(t: Turn, me: Side, guess: Word, r: GuessResult, p: Puzzle) {
    && (r.NotPlaying? <==> t.before.ending.Some? || me.Done())
    && (r.Stuck? <==> !r.NotPlaying? && me.Blocked(t.now))
    && (r.Played? <==> !r.NotPlaying? && !r.Stuck? && GuessCounts(me, guess, p.dictionary))
  }

  ghost predicate GuessPlayed(t: Turn, s: Seat, me: Side, them: Side, up: Word, r: GuessResult)
    requires r.Played?
  {
    && |up| == |me.word| && t.SameClocks()
    && r.seen == RecordedRow(me, up).seen && r.shown == RecordedRow(me, up).shown
    && t.after.ending == EndingOf(me, them, up, s)
    && if t.Over() then t.After(s) == Guessed(me, up) && t.After(Facing(s)) == them
       else GuessEffect(me, them, up, t.now, t.After(s), t.After(Facing(s)))
  }

  ghost predicate LawfulGuess(t: Turn, s: Seat, guess: Word, p: Puzzle) {
    && t.reply.OfGuess? && GuessAnswer(t, t.Before(s), guess, t.reply.guess, p)
    && if t.reply.guess.Played? then GuessPlayed(t, s, t.Before(s), t.Before(Facing(s)), Upper(guess), t.reply.guess)
       else t.after == t.before
  }

  ghost predicate CastOffers(t: Turn, s: Seat, req: Request, p: Puzzle) {
    && AbilityAt(t.Before(s).kind, req.slot) == Some(ReshapeReality) && t.OnlyTouches(s)
    && t.After(s) == t.Before(s).(fx := t.Before(s).fx.(reshape := t.After(s).fx.reshape))
    && Offerable(t.Before(Facing(s)), t.After(s).fx.reshape, p.n)
  }

  ghost predicate CastUses(t: Turn, s: Seat, req: Request, heard: bool, id: Ability, fate: Option<Fate>, p: Puzzle) {
    var paid, them := Spent(t.Before(s), Cost(id)), t.Before(Facing(s));
    && AbilityAt(t.Before(s).kind, req.slot) == Some(id) && id != ReshapeReality && t.after.ending == t.before.ending
    && CastEffect(id, req, t.now, p.maxGuesses, paid, them, t.After(s), t.After(Facing(s)))
    && (id == MinorPrayer || id == MajorPrayer ==> t.After(s) == if heard then paid else Refunded(paid, Cost(id)))
    && (fate.Some? <==> id == DivineIntervention)
    && match fate
       case None => t.SameClocks()
       case Some(f) =>
         && FateEffect(f, t.now, p.maxGuesses, paid, them, t.After(s), t.After(Facing(s)))
         && t.after.deadline == FateDeadline(f, t.now, t.before.deadline)
         && t.after.nextEnergy == FateEnergyClock(f, t.now, t.before.nextEnergy)
  }

  ghost predicate LawfulCast(t: Turn, s: Seat, req: Request, heard: bool, p: Puzzle) {
    && t.reply.OfCast?
    && (t.reply.cast.Refused? <==> t.before.ending.Some? || !MayCast(t.Before(s), t.Before(Facing(s)), req, t.now))
    && match t.reply.cast
       case Refused => t.after == t.before
       case Offered => CastOffers(t, s, req, p)
       case Used(id, fate) => CastUses(t, s, req, heard, id, fate, p)
  }

  predicate MayPick(me: Side, up: Word) {
    me.kind == Wizard && up in me.fx.reshape && me.fx.energy >= Cost(ReshapeReality)
  }

  ghost predicate LawfulPick(t: Turn, s: Seat, word: Word) {
    && t.reply == OfPick(t.before.ending.None? && MayPick(t.Before(s), Upper(word)))
    && if t.reply.done then
         && t.SameClocks() && t.after.ending == t.before.ending
         && ReshapeEffect(Upper(word), t.now, t.Before(s), t.Before(Facing(s)), t.After(s), t.After(Facing(s)))
       else t.after == t.before
  }

  ghost predicate LawfulIllusion(t: Turn, s: Seat, guess: Word, p: Puzzle) {
    && t.reply.OfIllusion? && t.OnlyTouches(s)
    && (t.reply.colors.Some? <==> t.before.ending.None? && TriesIllusion(t.Before(s), guess, p.dictionary, t.now))
    && if t.reply.colors.Some? then
         && t.After(s) == IllusionTried(t.Before(s), guess)
         && (Solves(t.reply.colors.value) <==> Upper(guess) == t.Before(s).fx.illusion.value.word)
       else t.After(s) == t.Before(s)
  }

  ghost predicate TickedTable(t: Turn) {
    var gained := DueEnergy(t.before.nextEnergy, t.now);
    && t.after.ending == None && t.after.deadline == t.before.deadline
    && t.after.nextEnergy == ClockAt(Clock(0, t.before.nextEnergy), t.now).next
    && t.after.a == WithEyes(Ticked(t.before.a, gained, t.now), t.after.a.fx.eyes)
    && t.after.b == WithEyes(Ticked(t.before.b, gained, t.now), t.after.b.fx.eyes)
    && EyesAimed(EyeDue, t.before.a.fx.eyes, t.after.a.fx.eyes, t.before.b.guesses, t.before.b.fx.destroyed, t.now)
    && EyesAimed(EyeDue, t.before.b.fx.eyes, t.after.b.fx.eyes, t.before.a.guesses, t.before.a.fx.destroyed, t.now)
  }

  ghost predicate LawfulTick(t: Turn) {
    if t.before.ending.Some? then t.after == t.before
    else if t.before.deadline != ZERO && t.before.deadline <= t.now then
      t.after == t.before.(ending := Some(Ending(None, TimeUp)))
    else TickedTable(t)
  }

  /** A turn answers its command by the rules and does what they say, dice aside, and
      nothing else. */
  ghost predicate Lawful(t: Turn, p: Puzzle) {
    match t.command
    case Guess(s, guess) => LawfulGuess(t, s, guess, p)
    case Cast(s, req, heard) => LawfulCast(t, s, req, heard, p)
    case Pick(s, word) => LawfulPick(t, s, word)
    case InIllusion(s, guess) => LawfulIllusion(t, s, guess, p)
    case NoAnswer(s, cost) =>
      && t.OnlyTouches(s)
      && t.After(s) == if t.before.ending.None? then Refunded(t.Before(s), cost) else t.Before(s)
    case GivesUp(s, reason) =>
      t.after == if t.before.ending.None? then t.before.(ending := Some(Ending(Some(Facing(s)), reason))) else t.before
    case Tick => LawfulTick(t)
  }

  // ----- What letters paid

  datatype Entry = PaidLetters(pay: nat) | WordSet | SlateWiped | NoEntry

  /** What a turn means for what a side's letters paid: its own guess pays for new letters,
      unless it ended the duel; a reshape that hits it or a new word sets its word. */
  function EntryOf(t: Turn, s: Seat): Entry {
    match t.command
    case Guess(side, guess) =>
      if side == s && t.reply.OfGuess? && t.reply.guess.Played? && !t.Over() && |guess| == |t.Before(s).word|
      then PaidLetters(LetterPay(t.Before(s), Upper(guess))) else NoEntry
    case Cast(_, _, _) =>
      if t.reply.OfCast? && t.reply.cast.Used? then
        if t.reply.cast.fate == Some(CleanSlate) then SlateWiped
        else if t.reply.cast.fate == Some(NewWord) then WordSet
        else NoEntry
      else NoEntry
    case Pick(side, _) =>
      if side != s && t.reply == OfPick(true) && !t.Before(s).fx.shield then WordSet else NoEntry
    case InIllusion(_, _) => NoEntry
    case NoAnswer(_, _) => NoEntry
    case GivesUp(_, _) => NoEntry
    case Tick => NoEntry
  }

  /** Letters pay energy: exactly that much more is on the side after the turn. */
  lemma LettersPayEnergy(t: Turn, p: Puzzle, s: Seat)
    requires Lawful(t, p) && EntryOf(t, s).PaidLetters?
    ensures t.After(s).fx.energy == t.Before(s).fx.energy + EntryOf(t, s).pay
  {
    hide GuessEffect, LetterPay, GuessAnswer, EndingOf;
    PayIsEnergy(t.Before(s), t.Before(Facing(s)), Upper(t.command.guess), t.now, t.After(s), t.After(Facing(s)));
  }

  function Booked(acc: Account, e: Entry): Account {
    match e
    case PaidLetters(pay) => Credited(acc, pay)
    case WordSet => Opened()
    case SlateWiped => WipedAccount(acc)
    case NoEntry => acc
  }

  function Books(acc: Account, log: seq<Turn>, s: Seat): Account {
    if log == [] then acc else Booked(Books(acc, log[..|log| - 1], s), EntryOf(log[|log| - 1], s))
  }

  /** Energy paid for letters since the side's word was last set or its slate wiped. */
  function PaidSinceReset(log: seq<Turn>, s: Seat): nat {
    if log == [] then 0
    else match EntryOf(log[|log| - 1], s)
      case PaidLetters(pay) => PaidSinceReset(log[..|log| - 1], s) + pay
      case WordSet => 0
      case SlateWiped => 0
      case NoEntry => PaidSinceReset(log[..|log| - 1], s)
  }

  /** ... since its word was last set, wipes or not. */
  function PaidSinceWord(log: seq<Turn>, s: Seat): nat {
    if log == [] then 0
    else match EntryOf(log[|log| - 1], s)
      case PaidLetters(pay) => PaidSinceWord(log[..|log| - 1], s) + pay
      case WordSet => 0
      case SlateWiped => PaidSinceWord(log[..|log| - 1], s)
      case NoEntry => PaidSinceWord(log[..|log| - 1], s)
  }

  function WipesSinceWord(log: seq<Turn>, s: Seat): nat {
    if log == [] then 0
    else match EntryOf(log[|log| - 1], s)
      case PaidLetters(_) => WipesSinceWord(log[..|log| - 1], s)
      case WordSet => 0
      case SlateWiped => WipesSinceWord(log[..|log| - 1], s) + 1
      case NoEntry => WipesSinceWord(log[..|log| - 1], s)
  }

  lemma {:induction false} BooksAddUp(log: seq<Turn>, s: Seat)
    ensures Books(Opened(), log, s) == Account(PaidSinceReset(log, s), PaidSinceWord(log, s), WipesSinceWord(log, s))
  {
    hide EntryOf;
    if log != [] {
      BooksAddUp(log[..|log| - 1], s);
    }
  }

  lemma BooksGrow(acc: Account, log: seq<Turn>, t: Turn, s: Seat)
    ensures Books(acc, log + [t], s) == Booked(Books(acc, log, s), EntryOf(t, s))
  {
    hide EntryOf;
    assert (log + [t])[..|log + [t]| - 1] == log;
  }
}
