/** What each command does to the two sides of a duel, as values: the specification
of the methods in duel.dfy (internal/classes/classes.go, internal/game/abilities.go,
internal/game/duel.go, internal/game/cleric.go, internal/game/rogue.go).

A command's dice are part of its specification only as "some roll": the relations
below say what holds whatever they show. */
module DuelRules {
  import opened Wordle
  import opened Boards
  import opened DuelSides
  import Elo

  const ENERGY_INTERVAL: Time := 30 * SECOND
  const POMMEL_STUN: Time := 10 * SECOND
  const AGGRESSIVE_STUN: Time := 5 * SECOND
  const MISSILE_FLIGHT: Time := 15 * SECOND
  const DIVINE_WILL_SILENCE: Time := 10 * SECOND
  const SUDDEN_DEATH: Time := 120 * SECOND
  const ILLUSION_GUESSES := 6
  const ILLUSION_ENERGY := 5
  const RESHAPE_OPTIONS := 5

  datatype Ability =
    | Slash | ShieldsUp | Determination | PommelStrike | Cripple
    | Scry | SeeingEye | MagicMissile | CastIllusion | ReshapeReality
    | Pickpocket | Cheat | Feint | UnderTheirNose | Confuse
    | MinorPrayer | Mend | Purify | MajorPrayer | DivineIntervention

  /** The ability in a class's slot; None for a bad slot. */
  function AbilityAt(kind: Kind, slot: int): Option<Ability> {
    if slot < 0 || slot >= 5 then None else
    Some(match kind
      case Knight => [Slash, ShieldsUp, Determination, PommelStrike, Cripple][slot]
      case Wizard => [Scry, SeeingEye, MagicMissile, CastIllusion, ReshapeReality][slot]
      case Rogue => [Pickpocket, Cheat, Feint, UnderTheirNose, Confuse][slot]
      case Cleric => [MinorPrayer, Mend, Purify, MajorPrayer, DivineIntervention][slot])
  }

  function Cost(id: Ability): nat {
    match id
    case Slash => 2 case ShieldsUp => 2 case Determination => 3 case PommelStrike => 3 case Cripple => 8
    case Scry => 2 case SeeingEye => 5 case MagicMissile => 6 case CastIllusion => 8 case ReshapeReality => 12
    case Pickpocket => 2 case Cheat => 5 case Feint => 6 case UnderTheirNose => 7 case Confuse => 10
    case MinorPrayer => 2 case Mend => 3 case Purify => 4 case MajorPrayer => 6 case DivineIntervention => 10
  }

  datatype Request = Request(slot: int, row: int, col: int, letter: Word, colors: seq<Color>)

  function Target(req: Request): Tile {
    Tile(req.row, req.col)
  }

  predicate OnBoard(guesses: seq<GuessRow>, t: Tile) {
    0 <= t.row < |guesses| && 0 <= t.col < |guesses[t.row].colors|
  }

  /** What an ability asks of the boards and of the request. */
  predicate CanCast(id: Ability, me: Side, them: Side, req: Request) {
    match id
    case ShieldsUp => !me.fx.shield
    case Cripple => them.UnusedRows() >= 2
    case CastIllusion => them.fx.illusion.None?
    case Slash => OnBoard(them.guesses, Target(req)) && Target(req) !in them.fx.destroyed
    case Scry => |req.letter| == 1 && 'A' <= UpperChar(req.letter[0]) <= 'Z'
    case Pickpocket =>
      // shown yellow, whatever it is
      && 0 <= req.row < |them.guesses| && 0 <= req.col < |them.guesses[req.row].shown|
      && them.guesses[req.row].shown[req.col] == Yellow && Target(req) !in them.fx.destroyed
    case Cheat => !me.fx.cheat
    case Feint => ValidPattern(req.colors, |me.word|)
    case UnderTheirNose => ValidPattern(req.colors, |me.word|)
    case Mend => 0 <= req.row < |me.guesses|
    case _ => true
  }

  /** Everything a cast needs: the ability, a voice, the energy, and its own rules. */
  predicate MayCast(me: Side, them: Side, req: Request, now: Time) {
    && AbilityAt(me.kind, req.slot).Some?
    && me.fx.silencedUntil <= now
    && me.fx.energy >= Cost(AbilityAt(me.kind, req.slot).value)
    && CanCast(AbilityAt(me.kind, req.slot).value, me, them, req)
  }

  function Spent(me: Side, cost: int): Side {
    me.(fx := me.fx.(energy := me.fx.energy - cost))
  }

  // ----- Guessing

  /** Whether a guess counts: a word from the dictionary, or any letters with Cheat. */
  predicate GuessCounts(me: Side, guess: Word, dictionary: set<Word>) {
    |guess| == |me.word| && if me.fx.cheat then Letters(Upper(guess)) else Upper(guess) in dictionary
  }

  /** A true row when it is the word, else a row with what is faked for either player. */
  function RecordedRow(me: Side, up: Word): GuessRow
    requires |up| == |me.word|
  {
    var colors := Colors(up, me.word);
    if Solves(colors) then TrueRow(up, colors)
    else GuessRow(up, colors,
                  if me.fx.falseNext.Some? then me.fx.falseNext.value else colors,
                  if me.fx.feint.Some? then me.fx.feint.value else colors)
  }

  /** The guesser's side once the guess is on the board. */
  function Guessed(me: Side, up: Word): Side
    requires |up| == |me.word|
  {
    var row := RecordedRow(me, up);
    var left := if me.fx.scrambledGuesses > 0 then me.fx.scrambledGuesses - 1 else me.fx.scrambledGuesses;
    var c := Elo.Closeness(row.colors);
    me.(guesses := me.guesses + [row], solved := me.solved || Solves(row.colors),
        best := if me.best < c then c else me.best,
        fx := me.fx.(cheat := false, feint := None, falseNext := None, scrambledGuesses := left,
                     keymap := if me.fx.scrambledGuesses == 1 then None else me.fx.keymap))
  }

  /** ... and once it paid for new letters and beat the missiles flying at them. */
  function Paid(me: Side, row: GuessRow): Side
    requires |row.word| == |row.colors|
  {
    me.(fx := me.fx.(greens := LearnedGreens(me.fx.greens, row.colors),
                     found := LearnedFound(me.fx.greens, me.fx.found, row),
                     energy := me.fx.energy + Gain(me.fx.greens, me.fx.found, row),
                     missiles := []))
  }

  /** What the letters of a guess pay. */
  function LetterPay(me: Side, up: Word): nat
    requires |up| == |me.word|
  {
    Gain(me.fx.greens, me.fx.found, RecordedRow(me, up))
  }

  /** The pay is energy: that much is on the guesser's side afterwards. */
  lemma PayIsEnergy(me: Side, them: Side, up: Word, now: Time, me': Side, them': Side)
    requires GuessEffect(me, them, up, now, me', them')
    ensures me'.fx.energy == me.fx.energy + LetterPay(me, up)
  {
    hide EyesAimed, Provoked, Gain, LearnedGreens, LearnedFound, Elo.Closeness, Colors;
  }

  function Later(a: Time, b: Time): Time {
    if a > b then a else b
  }

  function WithEyes(s: Side, eyes: seq<Eye>): Side {
    s.(fx := s.fx.(eyes := eyes))
  }

  /** The opponent's side after the guesser's passive, set off by a new green. Sneaky's
      keyboard is up to the dice. */
  ghost predicate Provoked(kind: Kind, from: Side, to: Side, now: Time) {
    match kind
    case Wizard => to == from
    case Knight =>
      to == if from.fx.shield then Unshielded(from)
            else from.(fx := from.fx.(stunnedUntil := Later(now + AGGRESSIVE_STUN, from.fx.stunnedUntil)))
    case Rogue =>
      if from.fx.shield then to == Unshielded(from)
      else && to == from.(fx := from.fx.(keymap := to.fx.keymap, scrambledGuesses := SCRAMBLE_GUESSES))
           && KeysTurned(from.fx.keymap, to.fx.keymap)
    case Cleric =>
      to == if from.fx.shield then Unshielded(from)
            else from.(fx := from.fx.(silencedUntil := Later(now + DIVINE_WILL_SILENCE, from.fx.silencedUntil)))
  }

  predicate FindsGreen(me: Side, row: GuessRow) {
    NewGreenCount(me.fx.greens, row.colors, |row.word|) > 0
  }

  /** After a guess that didn't end the duel (`g` is the guesser with the guess on the
      board): it pays, provokes, moves a Wizard's eyes, and lets the opponent's idle
      eyes look at it. */
  ghost predicate AfterGuess(g: Side, them: Side, row: GuessRow, now: Time, me': Side, them': Side) {
    && |row.word| == |row.colors|
    && me' == WithEyes(Paid(g, row), me'.fx.eyes)
    && (if FindsGreen(g, row) && g.kind == Wizard && g.fx.eyes != []
        then EyesAimed(EyeAll, g.fx.eyes, me'.fx.eyes, them.guesses, them.fx.destroyed, now)
        else me'.fx.eyes == g.fx.eyes)
    && (var provoked := WithEyes(them', them.fx.eyes);
        if FindsGreen(g, row) then Provoked(g.kind, them, provoked, now) else provoked == them)
    && EyesAimed(EyeIdle, them.fx.eyes, them'.fx.eyes, me'.guesses, me'.fx.destroyed, now)
  }

  ghost predicate GuessEffect(me: Side, them: Side, up: Word, now: Time, me': Side, them': Side) {
    |up| == |me.word| && AfterGuess(Guessed(me, up), them, RecordedRow(me, up), now, me', them')
  }

  // ----- Casting

  datatype Fate = CleanSlate | NewWord | SuddenDeath | Revelation | Fortune

  function Wiped(s: Side, maxGuesses: int): Side {
    s.(guesses := [], rows := maxGuesses, best := 0.0, fx := NewSideEffects(|s.word|))
  }

  /** Rescored against w: only what follows from the word changed, and it is exactly
      what the guesses show. */
  ghost predicate Rescored(from: Side, to: Side, w: Word) {
    && WordsOk(from.guesses, |w|)
    && to == from.(word := w, guesses := RescoredRows(from.guesses, w), best := to.best,
                   fx := from.fx.(greens := to.fx.greens, found := to.fx.found, eyes := to.fx.eyes))
    && ExactlyShown(to.guesses, to.fx.greens, to.fx.found, to.best)
  }

  /** A word that is not this side's, and that it hasn't guessed. */
  predicate Untaken(s: Side, w: Word) {
    w != s.word && forall r | 0 <= r < |s.guesses| :: s.guesses[r].word != w
  }

  ghost predicate FateEffect(fate: Fate, now: Time, maxGuesses: int, a: Side, b: Side, a': Side, b': Side) {
    match fate
    case CleanSlate => a' == Wiped(a, maxGuesses) && b' == Wiped(b, maxGuesses)
    case NewWord =>
      && WordOk(a'.word, |a.word|)
      && (a'.word == a.word || a'.word == b.word || (Untaken(a, a'.word) && Untaken(b, a'.word)))
      && Rescored(a, a', a'.word) && Rescored(b, b', a'.word)
      && EyesAimed(EyeLost, a.fx.eyes, a'.fx.eyes, b'.guesses, b'.fx.destroyed, now)
      && EyesAimed(EyeLost, b.fx.eyes, b'.fx.eyes, a'.guesses, a'.fx.destroyed, now)
    case SuddenDeath => a' == a && b' == b
    case Revelation => a' == a && b' == b
    case Fortune =>
      && a' == a.(fx := a.fx.(energy := b.fx.energy))
      && b' == b.(fx := b.fx.(energy := a.fx.energy))
  }

  /** From the caster after paying, `me`, to both sides afterwards. */
  ghost predicate CastEffect(id: Ability, req: Request, now: Time, maxGuesses: int, me: Side, them: Side, me': Side, them': Side) {
    match id
    case Slash =>
      if them.fx.shield then me' == me && them' == Unshielded(them)
      else && them' == them.(fx := them.fx.(destroyed := them.fx.destroyed + {Target(req)}))
           && me' == WithEyes(me, me'.fx.eyes)
           && EyesAimed(EyeLost, me.fx.eyes, me'.fx.eyes, them'.guesses, them'.fx.destroyed, now)
    case ShieldsUp => me' == me.(fx := me.fx.(shield := true)) && them' == them
    case Determination => me' == me.(rows := me.rows + 1) && them' == them
    case PommelStrike =>
      && me' == me
      && them' == if them.fx.shield then Unshielded(them)
                  else them.(fx := them.fx.(stunnedUntil := Later(now + POMMEL_STUN, them.fx.stunnedUntil)))
    case Cripple =>
      me' == me && them' == if them.fx.shield then Unshielded(them) else them.(rows := them.rows - 1)
    case Scry => me' == me && them' == them
    case SeeingEye =>
      if them.fx.shield then me' == me && them' == Unshielded(them)
      else && them' == them
           && me' == WithEyes(me, me'.fx.eyes)
           && |me'.fx.eyes| == |me.fx.eyes| + 1 && me'.fx.eyes[..|me.fx.eyes|] == me.fx.eyes
           && Aimed(me.fx.eyes, them.guesses, them.fx.destroyed, |me.fx.eyes|, now,
                    Eye(Tile(0, 0), false, ZERO), me'.fx.eyes[|me.fx.eyes|])
    case MagicMissile =>
      me' == me && them' == them.(fx := them.fx.(missiles := them.fx.missiles + [now + MISSILE_FLIGHT]))
    case CastIllusion =>
      && me' == me
      && if them.fx.shield then them' == Unshielded(them)
         else && them'.fx.illusion.Some? && them'.fx.illusion.value.guesses == 0 && them'.fx.illusion.value.word != []
              && them' == them.(fx := them.fx.(illusion := them'.fx.illusion))
    case ReshapeReality => false
    case Pickpocket => me' == me && them' == Unshielded(them)
    case Cheat => me' == me.(fx := me.fx.(cheat := true)) && them' == them
    case Feint => me' == me.(fx := me.fx.(feint := Some(req.colors))) && them' == them
    case UnderTheirNose =>
      && me' == me
      && them' == if them.fx.shield then Unshielded(them) else them.(fx := them.fx.(falseNext := Some(req.colors)))
    case Confuse =>
      && me' == me
      && if them.fx.shield then them' == Unshielded(them)
         else && them'.fx.keymap.Some? && Permutation(them'.fx.keymap.value)
              && them' == them.(fx := them.fx.(keymap := them'.fx.keymap, scrambledGuesses := SCRAMBLE_GUESSES))
    case MinorPrayer => (me' == me || me' == Refunded(me, Cost(id))) && them' == them
    case MajorPrayer => (me' == me || me' == Refunded(me, Cost(id))) && them' == them
    case Mend =>
      && 0 <= req.row < |me.guesses|
      && me' == me.(guesses := Without(me.guesses, req.row),
                    fx := me.fx.(destroyed := MendedDestroyed(me.fx.destroyed, req.row)))
      && them' == WithEyes(them, them'.fx.eyes)
      && EyesMended(them.fx.eyes, them'.fx.eyes, req.row, me'.guesses, me'.fx.destroyed, now)
    case Purify =>
      && me' == me.(fx := me.fx.(stunnedUntil := ZERO, silencedUntil := ZERO, keymap := None, scrambledGuesses := 0,
                                 falseNext := None, missiles := [], illusion := None))
      && them' == WithEyes(them, [])
    case DivineIntervention => exists fate :: FateEffect(fate, now, maxGuesses, me, them, me', them')
  }

  /** What a fate does to the duel's clocks. */
  function FateDeadline(fate: Fate, now: Time, deadline: Time): Time {
    match fate
    case CleanSlate => ZERO
    case SuddenDeath => if deadline == ZERO || now + SUDDEN_DEATH < deadline then now + SUDDEN_DEATH else deadline
    case _ => deadline
  }

  function FateEnergyClock(fate: Fate, now: Time, nextEnergy: Time): Time {
    if fate == CleanSlate then now + ENERGY_INTERVAL else nextEnergy
  }

  /** A fate's effect on what letters paid: a new word opens a new account. */
  function FateAccount(fate: Option<Fate>, acc: Account): Account {
    if fate == Some(CleanSlate) then WipedAccount(acc)
    else if fate == Some(NewWord) then Opened()
    else acc
  }

  /** A column, and the letter each side's word has there. */
  datatype Revealed = Revealed(col: nat, letterA: char, letterB: char)

  /** A Revelation shows each side a letter of its word, in a column neither had found as
      long as there is one. */
  predicate Reveals(a: Side, b: Side, r: Revealed) {
    && r.col < |a.word| == |b.word| == |a.fx.greens| == |b.fx.greens|
    && r.letterA == a.word[r.col] && r.letterB == b.word[r.col]
    && ((exists i | 0 <= i < |a.word| :: !a.fx.greens[i] && !b.fx.greens[i]) ==> !a.fx.greens[r.col] && !b.fx.greens[r.col])
  }

  /** Words Reshape Reality may offer: each one new to the target. */
  predicate Offerable(them: Side, words: seq<Word>, n: nat) {
    && |words| <= RESHAPE_OPTIONS
    && (forall i | 0 <= i < |words| :: WordOk(words[i], n) && Untaken(them, words[i]))
    && (forall i, j | 0 <= i < j < |words| :: words[i] != words[j])
  }

  function Refunded(s: Side, cost: int): Side {
    s.(fx := s.fx.(energy := s.fx.energy + cost))
  }

  // ----- Reshape Reality's pick, and illusions

  function ReshapePaid(me: Side): Side {
    me.(fx := me.fx.(reshape := [], energy := me.fx.energy - Cost(ReshapeReality)))
  }

  /** The picked word becomes the opponent's, unless their shield stops it. */
  ghost predicate ReshapeEffect(w: Word, now: Time, me: Side, them: Side, me': Side, them': Side) {
    var paid := ReshapePaid(me);
    if them.fx.shield then me' == paid && them' == Unshielded(them)
    else && me' == WithEyes(paid, me'.fx.eyes)
         && Rescored(them, them', w) && them'.fx.eyes == them.fx.eyes
         && EyesAimed(EyeLost, me.fx.eyes, me'.fx.eyes, them'.guesses, them'.fx.destroyed, now)
  }

  /** A reshape leaves an all green row on the board of somebody still playing exactly
      when they guessed the word while its caster was picking. */
  lemma ReshapeShowsSolve(them: Side, them': Side, w: Word)
    requires Rescored(them, them', w) && w != []
    ensures (exists r | 0 <= r < |them'.guesses| :: Solves(them'.guesses[r].colors))
        <==> (exists r | 0 <= r < |them.guesses| :: them.guesses[r].word == w)
  {
    hide ExactlyShown;
    forall r | 0 <= r < |them.guesses|
      ensures Solves(them'.guesses[r].colors) <==> them.guesses[r].word == w
    {
      SolvesExactly(them.guesses[r].word, w);
    }
  }

  predicate TriesIllusion(me: Side, guess: Word, dictionary: set<Word>, now: Time) {
    && me.fx.illusion.Some? && me.fx.stunnedUntil <= now
    && |guess| == |me.fx.illusion.value.word| && Upper(guess) in dictionary
  }

  /** After a guess in the Illusion: free for the word, free and poorer after too many. */
  function IllusionTried(me: Side, guess: Word): Side
    requires me.fx.illusion.Some?
  {
    var ill := me.fx.illusion.value;
    if Upper(guess) == ill.word then me.(fx := me.fx.(illusion := None))
    else if ill.guesses + 1 >= ILLUSION_GUESSES
    then me.(fx := me.fx.(illusion := None, energy := me.fx.energy - Min(ILLUSION_ENERGY, me.fx.energy)))
    else me.(fx := me.fx.(illusion := Some(Illusion(ill.word, ill.guesses + 1))))
  }

  // ----- Time

  /** After the missiles that are due by now. */
  function Landed(s: Side, now: Time): Side {
    var t := Struck(s, DueCount(s.fx.missiles, now));
    t.(fx := t.fx.(missiles := Flying(s.fx.missiles, now)))
  }

  /** How many times the energy interval has come round by now. */
  function DueEnergy(next: Time, now: Time): nat {
    if now < next then 0 else (now - next) / ENERGY_INTERVAL + 1
  }

  datatype Clock = Clock(energy: int, next: Time)

  function ClockAt(c: Clock, now: Time): Clock {
    var k := DueEnergy(c.next, now);
    Clock(c.energy + k, c.next + k * ENERGY_INTERVAL)
  }

  function ClockRun(c: Clock, ticks: seq<Time>): Clock {
    if ticks == [] then c else ClockAt(ClockRun(c, ticks[..|ticks| - 1]), ticks[|ticks| - 1])
  }

  ghost predicate Ordered(ticks: seq<Time>) {
    forall i, j | 0 <= i < j < |ticks| :: ticks[i] <= ticks[j]
  }

  lemma TwoTicks(c: Clock, t: Time, u: Time)
    requires t <= u
    ensures ClockAt(ClockAt(c, t), u) == ClockAt(c, u)
  {
    var k := DueEnergy(c.next, t);
    var next := c.next + k * ENERGY_INTERVAL;
    assert t < next;
    if u >= next {
      Shifted(u - c.next, k);
    }
  }

  lemma Shifted(d: int, k: int)
    ensures (d - k * ENERGY_INTERVAL) / ENERGY_INTERVAL == d / ENERGY_INTERVAL - k
  {
  }

  /** Energy over time depends on the time, not on how often it was looked at: every
      schedule of ticks that ends at the same time leaves the same energy. */
  lemma {:induction false} TicksDependOnTime(c: Clock, ticks: seq<Time>)
    requires ticks != [] && Ordered(ticks)
    ensures ClockRun(c, ticks) == ClockAt(c, ticks[|ticks| - 1])
  {
    var n := |ticks| - 1;
    if n == 0 {
      assert ticks[..0] == [];
    } else {
      var init := ticks[..n];
      TicksDependOnTime(c, init);
      TwoTicks(c, init[n - 1], ticks[n]);
    }
  }

  /** A side after a tick, eyes aside: energy over time, stun and silence wearing off,
      and the missiles that are due landing in one go. */
  function Ticked(s: Side, gained: nat, now: Time): Side {
    var t := s.(fx := s.fx.(energy := s.fx.energy + gained,
                            stunnedUntil := if s.fx.stunnedUntil <= now then ZERO else s.fx.stunnedUntil,
                            silencedUntil := if s.fx.silencedUntil <= now then ZERO else s.fx.silencedUntil));
    Landed(t, now)
  }
}
