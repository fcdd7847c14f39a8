/** One side of a duel as a value, and what its parts mean
(internal/game/abilities.go, internal/game/duel.go, internal/game/cleric.go).

`Side` is a snapshot of a DuelSide object (see duel.dfy). The predicates below
take only the fields they speak of; together they are the duel invariant. */
module Boards {
  import opened Wordle
  import Elo

  datatype Option<T> = None | Some(value: T)

  /** Milliseconds; ZERO is Go's zero time. */
  type Time = int
  const ZERO: Time := 0
  const SECOND: Time := 1000

  const GREEN_ENERGY := 2
  const YELLOW_ENERGY := 1
  const EYE_INTERVAL: Time := 30 * SECOND

  datatype Kind = Knight | Wizard | Rogue | Cleric

  /** Row and column; a board has no more than its guesses. */
  datatype Tile = Tile(row: int, col: int)

  /** When `on` is false, `at` means nothing. */
  datatype Eye = Eye(at: Tile, on: bool, next: Time)

  /** A scored guess: its real colors, what its guesser saw, what the opponent was shown. */
  datatype GuessRow = GuessRow(word: Word, colors: seq<Color>, seen: seq<Color>, shown: seq<Color>)

  datatype Illusion = Illusion(word: Word, guesses: nat)

  /** The part of a side that a clean slate resets as a whole. */
  datatype SideEffects = SideEffects(
    energy: int, greens: seq<bool>, found: set<char>,
    stunnedUntil: Time, shield: bool, destroyed: set<Tile>, eyes: seq<Eye>, missiles: seq<Time>,
    illusion: Option<Illusion>, reshape: seq<Word>, cheat: bool,
    feint: Option<seq<Color>>, falseNext: Option<seq<Color>>,
    keymap: Option<seq<char>>, scrambledGuesses: int, silencedUntil: Time)

  function NewSideEffects(wordLength: nat): SideEffects {
    SideEffects(0, NoGreens(wordLength), {}, ZERO, false, {}, [], [], None, [], false, None, None, None, 0, ZERO)
  }

  datatype Side = Side(
    kind: Kind, word: Word, guesses: seq<GuessRow>, rows: int, solved: bool, best: real, fx: SideEffects)
  {
    predicate Out() { !solved && |guesses| >= rows }
    predicate Done() { solved || Out() }
    function UnusedRows(): int { rows - |guesses| }
    predicate Blocked(now: Time) { now < fx.stunnedUntil || fx.illusion.Some? }
  }

  predicate WordOk(w: Word, n: nat) {
    |w| == n && Letters(w)
  }

  // ----- Guesses

  /** A coloring that could be true of a guess, but not of the word. */
  predicate ValidPattern(colors: seq<Color>, n: nat) {
    && |colors| == n
    && (forall i | 0 <= i < n :: colors[i] != Hidden)
    && !Solves(colors)
  }

  predicate PatternOk(p: Option<seq<Color>>, n: nat) {
    p.Some? ==> ValidPattern(p.value, n)
  }

  /** What somebody was shown is the truth, or a fake of a guess that wasn't a solve. */
  predicate FakeOk(shown: seq<Color>, truth: seq<Color>, n: nat) {
    shown == truth || (ValidPattern(shown, n) && !Solves(truth))
  }

  predicate RowOk(g: GuessRow, word: Word) {
    && WordOk(g.word, |word|)
    && g.colors == Colors(g.word, word)
    && FakeOk(g.seen, g.colors, |word|) && FakeOk(g.shown, g.colors, |word|)
  }

  lemma RowLengths(g: GuessRow, word: Word)
    requires RowOk(g, word)
    ensures |g.word| == |g.colors| == |g.seen| == |g.shown| == |word| && Letters(g.word)
  {
  }

  predicate RowsOk(word: Word, guesses: seq<GuessRow>) {
    forall r | 0 <= r < |guesses| :: RowOk(guesses[r], word)
  }

  /** Every guess has as many colors as letters. */
  predicate Shaped(guesses: seq<GuessRow>) {
    forall r | 0 <= r < |guesses| :: |guesses[r].word| == |guesses[r].colors|
  }

  function TrueRow(word: Word, colors: seq<Color>): GuessRow {
    GuessRow(word, colors, colors, colors)
  }

  /** However a guess was faked, all three colorings show a solve exactly when it is the word. */
  lemma FakesNeverHideASolve(g: GuessRow, word: Word)
    requires RowOk(g, word) && word != []
    ensures Solves(g.colors) <==> g.word == word
    ensures Solves(g.seen) <==> g.word == word
    ensures Solves(g.shown) <==> g.word == word
  {
    SolvesExactly(g.word, word);
  }

  // ----- What a side has found out

  predicate NewGreen(greens: seq<bool>, colors: seq<Color>, i: nat) {
    i < |colors| && i < |greens| && colors[i] == Green && !greens[i]
  }

  function LearnedGreens(greens: seq<bool>, colors: seq<Color>): (r: seq<bool>)
    ensures |r| == |greens|
  {
    seq(|greens|, i requires 0 <= i < |greens| => greens[i] || (i < |colors| && colors[i] == Green))
  }

  /** How many of the first n colors are new greens, and the letters found with them. */
  function NewGreenCount(greens: seq<bool>, colors: seq<Color>, n: nat): nat {
    if n == 0 then 0 else NewGreenCount(greens, colors, n - 1) + if NewGreen(greens, colors, n - 1) then 1 else 0
  }

  function WithGreens(found: set<char>, greens: seq<bool>, g: GuessRow, n: nat): set<char>
    requires n <= |g.word|
  {
    if n == 0 then found
    else if NewGreen(greens, g.colors, n - 1) then WithGreens(found, greens, g, n - 1) + {g.word[n - 1]}
    else WithGreens(found, greens, g, n - 1)
  }

  /** The letters found after the first n colors' yellows, and how many of them are new. */
  function WithYellows(found: set<char>, g: GuessRow, n: nat): set<char>
    requires n <= |g.word| == |g.colors|
  {
    if n == 0 then found
    else if g.colors[n - 1] == Yellow then WithYellows(found, g, n - 1) + {g.word[n - 1]}
    else WithYellows(found, g, n - 1)
  }

  function NewYellowCount(found: set<char>, g: GuessRow, n: nat): nat
    requires n <= |g.word| == |g.colors|
  {
    if n == 0 then 0
    else NewYellowCount(found, g, n - 1)
         + if g.colors[n - 1] == Yellow && g.word[n - 1] !in WithYellows(found, g, n - 1) then 1 else 0
  }

  function LearnedFound(greens: seq<bool>, found: set<char>, g: GuessRow): set<char>
    requires |g.word| == |g.colors|
  {
    WithYellows(WithGreens(found, greens, g, |g.word|), g, |g.word|)
  }

  /** The energy new letters are worth. */
  function Gain(greens: seq<bool>, found: set<char>, g: GuessRow): nat
    requires |g.word| == |g.colors|
  {
    GREEN_ENERGY * NewGreenCount(greens, g.colors, |g.word|)
    + YELLOW_ENERGY * NewYellowCount(WithGreens(found, greens, g, |g.word|), g, |g.word|)
  }

  lemma {:induction false} WithGreensMember(found: set<char>, greens: seq<bool>, g: GuessRow, n: nat, l: char)
    requires n <= |g.word|
    ensures l in WithGreens(found, greens, g, n) <==>
              l in found || exists i: nat | i < n :: NewGreen(greens, g.colors, i) && g.word[i] == l
  {
    if n > 0 {
      WithGreensMember(found, greens, g, n - 1, l);
    }
  }

  lemma {:induction false} WithYellowsMember(found: set<char>, g: GuessRow, n: nat, l: char)
    requires n <= |g.word| == |g.colors|
    ensures l in WithYellows(found, g, n) <==>
              l in found || exists i: nat | i < n :: g.colors[i] == Yellow && g.word[i] == l
  {
    if n > 0 {
      WithYellowsMember(found, g, n - 1, l);
    }
  }

  lemma LearnedMember(greens: seq<bool>, found: set<char>, g: GuessRow, l: char)
    requires |g.word| == |g.colors|
    ensures l in LearnedFound(greens, found, g) <==>
              || l in found
              || (exists i: nat | i < |g.word| :: NewGreen(greens, g.colors, i) && g.word[i] == l)
              || (exists i: nat | i < |g.word| :: g.colors[i] == Yellow && g.word[i] == l)
  {
    WithGreensMember(found, greens, g, |g.word|, l);
    WithYellowsMember(WithGreens(found, greens, g, |g.word|), g, |g.word|, l);
  }

  predicate Covered(g: GuessRow, greens: seq<bool>, found: set<char>, best: real) {
    && |g.colors| == |g.word| == |greens|
    && (forall i | 0 <= i < |greens| :: g.colors[i] == Green ==> greens[i])
    && (forall i | 0 <= i < |greens| :: g.colors[i] == Green || g.colors[i] == Yellow ==> g.word[i] in found)
    && Elo.Closeness(g.colors) <= best
  }

  predicate CoversGuesses(guesses: seq<GuessRow>, greens: seq<bool>, found: set<char>, best: real) {
    forall r | 0 <= r < |guesses| :: Covered(guesses[r], greens, found, best)
  }

  /** Nothing is known that isn't so: a green position's letter counts as found, and
      found letters are in the word. */
  predicate Truthful(word: Word, greens: seq<bool>, found: set<char>) {
    && |greens| == |word|
    && (forall i | 0 <= i < |word| :: greens[i] ==> word[i] in found)
    && (forall l | l in found :: l in word)
  }

  predicate KnowledgeOk(word: Word, guesses: seq<GuessRow>, greens: seq<bool>, found: set<char>, best: real) {
    Truthful(word, greens, found) && CoversGuesses(guesses, greens, found, best)
  }

  /** The closed form, from scratch: exactly what the recorded guesses show. */
  predicate ShownGreen(guesses: seq<GuessRow>, i: nat) {
    exists r | 0 <= r < |guesses| :: i < |guesses[r].colors| && guesses[r].colors[i] == Green
  }

  predicate ShownIn(g: GuessRow, l: char) {
    exists i | 0 <= i < |g.colors| && i < |g.word| :: (g.colors[i] == Green || g.colors[i] == Yellow) && g.word[i] == l
  }

  predicate ShownLetter(guesses: seq<GuessRow>, l: char) {
    exists r | 0 <= r < |guesses| :: ShownIn(guesses[r], l)
  }

  function MaxCloseness(guesses: seq<GuessRow>): real {
    if guesses == [] then 0.0
    else
      var m := MaxCloseness(guesses[..|guesses| - 1]);
      var c := Elo.Closeness(guesses[|guesses| - 1].colors);
      if m < c then c else m
  }

  ghost predicate ExactlyShown(guesses: seq<GuessRow>, greens: seq<bool>, found: set<char>, best: real) {
    && (forall i | 0 <= i < |greens| :: greens[i] <==> ShownGreen(guesses, i))
    && (forall l: char :: l in found <==> ShownLetter(guesses, l))
    && best == MaxCloseness(guesses)
  }

  function NoGreens(n: nat): (r: seq<bool>)
    ensures |r| == n && forall i | 0 <= i < n :: !r[i]
  {
    seq(n, _ => false)
  }

  lemma NothingKnown(word: Word)
    ensures KnowledgeOk(word, [], NoGreens(|word|), {}, 0.0)
    ensures ExactlyShown([], NoGreens(|word|), {}, 0.0)
  {
  }

  lemma {:induction false} MaxClosenessBounds(guesses: seq<GuessRow>)
    ensures forall r | 0 <= r < |guesses| :: Elo.Closeness(guesses[r].colors) <= MaxCloseness(guesses)
  {
    if guesses != [] {
      var init := guesses[..|guesses| - 1];
      MaxClosenessBounds(init);
      forall r | 0 <= r < |guesses| ensures Elo.Closeness(guesses[r].colors) <= MaxCloseness(guesses) {
        if r < |init| {
          assert init[r] == guesses[r];
        }
      }
    }
  }

  /** Learning a guess's letters never forgets, covers that guess, and stays truthful. */
  lemma LearnKeepsKnowledge(word: Word, guesses: seq<GuessRow>, greens: seq<bool>, found: set<char>, best: real, g: GuessRow)
    requires RowOk(g, word) && Truthful(word, greens, found) && CoversGuesses(guesses, greens, found, best)
    ensures Truthful(word, LearnedGreens(greens, g.colors), LearnedFound(greens, found, g))
    ensures forall b: real | b >= best && b >= Elo.Closeness(g.colors) ::
              CoversGuesses(guesses + [g], LearnedGreens(greens, g.colors), LearnedFound(greens, found, g), b)
  {
    var greens', found' := LearnedGreens(greens, g.colors), LearnedFound(greens, found, g);
    forall i | 0 <= i < |word| && greens'[i] ensures word[i] in found' {
      LearnedMember(greens, found, g, word[i]);
      if !greens[i] {
        assert NewGreen(greens, g.colors, i) && g.word[i] == word[i];
      }
    }
    forall l | l in found' ensures l in word {
      LearnedMember(greens, found, g, l);
      if l !in found {
        var i: nat :| i < |g.word| && g.colors[i] != Grey && g.word[i] == l;
        ColoredLetterInWord(g.word, word, i);
      }
    }
    forall i | 0 <= i < |word| && (g.colors[i] == Green || g.colors[i] == Yellow)
      ensures g.word[i] in found'
    {
      LearnedMember(greens, found, g, g.word[i]);
      if g.colors[i] == Green {
        assert g.word[i] == word[i];
        assert greens[i] || NewGreen(greens, g.colors, i);
      }
    }
    forall l | l in found ensures l in found' {
      LearnedMember(greens, found, g, l);
    }
    forall b: real | b >= best && b >= Elo.Closeness(g.colors)
      ensures CoversGuesses(guesses + [g], greens', found', b)
    {
      forall r | 0 <= r < |guesses + [g]| ensures Covered((guesses + [g])[r], greens', found', b) {
        if r < |guesses| {
          assert Covered(guesses[r], greens, found, best);
        }
      }
    }
  }

  // ----- Letter energy is bounded

  /** Positions among the first n that aren't green yet. */
  function OpenCount(greens: seq<bool>, n: nat): nat
    requires n <= |greens|
  {
    if n == 0 then 0 else OpenCount(greens, n - 1) + if greens[n - 1] then 0 else 1
  }

  function LetterSet(word: Word): set<char> {
    set l | l in word
  }

  /** The energy the letters a side hasn't found yet can still be worth. */
  function Potential(word: Word, greens: seq<bool>, found: set<char>): nat {
    GREEN_ENERGY * OpenCount(greens, |greens|) + YELLOW_ENERGY * |LetterSet(word) - found|
  }

  function MostLetterEnergy(word: Word): nat {
    GREEN_ENERGY * |word| + YELLOW_ENERGY * |LetterSet(word)|
  }

  lemma CardinalityLe<T>(a: set<T>, b: set<T>)
    requires a <= b
    ensures |a| <= |b|
  {
    assert b == a + (b - a);
  }

  lemma {:induction false} OpenAtMost(greens: seq<bool>, n: nat)
    requires n <= |greens|
    ensures OpenCount(greens, n) <= n
  {
    if n > 0 {
      OpenAtMost(greens, n - 1);
    }
  }

  lemma PotentialAtMost(word: Word, greens: seq<bool>, found: set<char>)
    requires |greens| == |word|
    ensures Potential(word, greens, found) <= MostLetterEnergy(word)
  {
    OpenAtMost(greens, |greens|);
    CardinalityLe(LetterSet(word) - found, LetterSet(word));
  }

  lemma {:induction false} GreensUsePositions(greens: seq<bool>, colors: seq<Color>, n: nat)
    requires n <= |greens| == |colors|
    ensures OpenCount(LearnedGreens(greens, colors), n) + NewGreenCount(greens, colors, n) == OpenCount(greens, n)
  {
    if n > 0 {
      GreensUsePositions(greens, colors, n - 1);
    }
  }

  lemma FindOne(letters: set<char>, found: set<char>, l: char)
    requires l in letters
    ensures |letters - (found + {l})| + (if l in found then 0 else 1) == |letters - found|
  {
    if l in found {
      assert letters - (found + {l}) == letters - found;
    } else {
      assert letters - found == (letters - (found + {l})) + {l};
    }
  }

  lemma {:induction false} YellowsUseLetters(letters: set<char>, found: set<char>, g: GuessRow, n: nat)
    requires n <= |g.word| == |g.colors|
    requires forall i | 0 <= i < |g.word| && g.colors[i] == Yellow :: g.word[i] in letters
    ensures |letters - WithYellows(found, g, n)| + NewYellowCount(found, g, n) == |letters - found|
  {
    if n > 0 {
      YellowsUseLetters(letters, found, g, n - 1);
      if g.colors[n - 1] == Yellow {
        FindOne(letters, WithYellows(found, g, n - 1), g.word[n - 1]);
      }
    }
  }

  lemma {:induction false} YellowsAreNew(found: set<char>, g: GuessRow, n: nat)
    requires n <= |g.word| == |g.colors|
    ensures found <= WithYellows(found, g, n) && NewYellowCount(found, g, n) == |WithYellows(found, g, n) - found|
  {
    if n == 0 {
      assert WithYellows(found, g, 0) - found == {};
    } else {
      YellowsAreNew(found, g, n - 1);
      var before, l := WithYellows(found, g, n - 1), g.word[n - 1];
      if g.colors[n - 1] == Yellow && l !in before {
        assert (before + {l}) - found == (before - found) + {l};
      } else if g.colors[n - 1] == Yellow {
        assert before + {l} == before;
      }
    }
  }

  /** What a guess pays, in numbers: two for every position that turns green, and one for every
      letter found that the new greens did not already show. */
  lemma GainInNumbers(greens: seq<bool>, found: set<char>, g: GuessRow)
    requires |g.word| == |g.colors| == |greens|
    ensures var newly := set l | l in LearnedFound(greens, found, g) && l !in WithGreens(found, greens, g, |g.word|);
            Gain(greens, found, g) == 2 * (OpenCount(greens, |greens|) - OpenCount(LearnedGreens(greens, g.colors), |greens|)) + |newly|
  {
    var shown := WithGreens(found, greens, g, |g.word|);
    GreensUsePositions(greens, g.colors, |greens|);
    YellowsAreNew(shown, g, |g.word|);
    assert (set l | l in LearnedFound(greens, found, g) && l !in shown) == LearnedFound(greens, found, g) - shown;
  }

  /** Each learned guess pays at most the drop in what is left to find. */
  lemma GainFromPotential(word: Word, greens: seq<bool>, found: set<char>, g: GuessRow)
    requires RowOk(g, word) && |greens| == |word|
    ensures Gain(greens, found, g) + Potential(word, LearnedGreens(greens, g.colors), LearnedFound(greens, found, g))
         <= Potential(word, greens, found)
  {
    var found1 := WithGreens(found, greens, g, |g.word|);
    GreensUsePositions(greens, g.colors, |greens|);
    forall i | 0 <= i < |g.word| && g.colors[i] == Yellow ensures g.word[i] in word {
      ColoredLetterInWord(g.word, word, i);
    }
    YellowsUseLetters(LetterSet(word), found1, g, |g.word|);
    forall l | l in found ensures l in found1 {
      WithGreensMember(found, greens, g, |g.word|, l);
    }
    CardinalityLe(LetterSet(word) - found1, LetterSet(word) - found);
  }

  // ----- Destroyed letters, eyes and the visible board

  predicate DestroyedOk(guesses: seq<GuessRow>, destroyed: set<Tile>) {
    forall t | t in destroyed :: 0 <= t.row < |guesses| && 0 <= t.col < |guesses[t.row].colors|
  }

  /** A tile a Seeing Eye may look at. */
  predicate Visible(guesses: seq<GuessRow>, destroyed: set<Tile>, t: Tile) {
    && 0 <= t.row < |guesses| && 0 <= t.col < |guesses[t.row].colors|
    && guesses[t.row].colors[t.col] != Green && t !in destroyed
  }

  /** Every switched-on eye points at a letter it may see. */
  predicate EyesOk(eyes: seq<Eye>, guesses: seq<GuessRow>, destroyed: set<Tile>) {
    forall k | 0 <= k < |eyes| :: eyes[k].on ==> Visible(guesses, destroyed, eyes[k].at)
  }

  predicate EyesDistinct(eyes: seq<Eye>) {
    forall j, k | 0 <= j < k < |eyes| :: eyes[j].on && eyes[k].on ==> eyes[j].at != eyes[k].at
  }

  /** Some eye but number `except` is on t. */
  predicate Watching(eyes: seq<Eye>, t: Tile, except: int) {
    exists k | 0 <= k < |eyes| :: k != except && eyes[k].on && eyes[k].at == t
  }

  predicate CanLookAt(eyes: seq<Eye>, guesses: seq<GuessRow>, destroyed: set<Tile>, except: int, t: Tile) {
    Visible(guesses, destroyed, t) && !Watching(eyes, t, except)
  }

  /** The outcomes of aiming eye number k, whatever the dice. */
  ghost predicate Aimed(eyes: seq<Eye>, guesses: seq<GuessRow>, destroyed: set<Tile>, k: int, now: Time, from: Eye, to: Eye) {
    && to.next == now + EYE_INTERVAL
    && (to.on <==> exists t :: CanLookAt(eyes, guesses, destroyed, k, t))
    && (if to.on then CanLookAt(eyes, guesses, destroyed, k, to.at) else to.at == from.at)
  }

  /** Why an eye moves: it lost its letter, it has none, its time came, or the
      wizard's passive moves them all. */
  datatype Why = EyeLost | EyeIdle | EyeDue | EyeAll

  predicate MustMove(why: Why, e: Eye, guesses: seq<GuessRow>, destroyed: set<Tile>, now: Time) {
    match why
    case EyeLost => e.on && !Visible(guesses, destroyed, e.at)
    case EyeIdle => !e.on
    case EyeDue => e.next <= now
    case EyeAll => true
  }

  /** The eyes after aiming, one after the other, those that must move. When it is
      eye k's turn, the eyes before it have moved and those after it have not. */
  ghost predicate EyesAimed(why: Why, from: seq<Eye>, to: seq<Eye>, guesses: seq<GuessRow>, destroyed: set<Tile>, now: Time) {
    && |to| == |from|
    && forall k | 0 <= k < |from| ::
         if MustMove(why, from[k], guesses, destroyed, now)
         then Aimed(to[..k] + from[k..], guesses, destroyed, k, now, from[k], to[k])
         else to[k] == from[k]
  }

  lemma AimKeepsDistinct(eyes: seq<Eye>, guesses: seq<GuessRow>, destroyed: set<Tile>, k: nat, now: Time, to: Eye)
    requires k < |eyes| && Aimed(eyes, guesses, destroyed, k, now, eyes[k], to) && EyesDistinct(eyes)
    ensures EyesDistinct(eyes[k := to])
  {
  }

  lemma {:induction false} AimedPrefixDistinct(why: Why, from: seq<Eye>, to: seq<Eye>, guesses: seq<GuessRow>, destroyed: set<Tile>, now: Time, k: nat)
    requires EyesAimed(why, from, to, guesses, destroyed, now) && EyesDistinct(from)
    requires k <= |from|
    ensures EyesDistinct(to[..k] + from[k..])
  {
    if k == 0 {
      assert to[..0] + from[0..] == from;
    } else {
      AimedPrefixDistinct(why, from, to, guesses, destroyed, now, k - 1);
      var mid := to[..k - 1] + from[k - 1..];
      assert to[..k] + from[k..] == mid[k - 1 := to[k - 1]];
      assert mid[k - 1] == from[k - 1];
      if MustMove(why, from[k - 1], guesses, destroyed, now) {
        AimKeepsDistinct(mid, guesses, destroyed, k - 1, now, to[k - 1]);
      } else {
        assert mid[k - 1 := to[k - 1]] == mid;
      }
    }
  }

  /** Aiming eyes keeps them on different letters and, if the eyes that stay put are
      fine, leaves every eye on a letter it may see. */
  lemma AimingKeepsEyes(why: Why, from: seq<Eye>, to: seq<Eye>, guesses: seq<GuessRow>, destroyed: set<Tile>, now: Time)
    requires EyesAimed(why, from, to, guesses, destroyed, now)
    requires forall k | 0 <= k < |from| :: from[k].on && !Visible(guesses, destroyed, from[k].at)
                                           ==> MustMove(why, from[k], guesses, destroyed, now)
    ensures EyesOk(to, guesses, destroyed)
    ensures EyesDistinct(from) ==> EyesDistinct(to)
  {
    if EyesDistinct(from) {
      AimedPrefixDistinct(why, from, to, guesses, destroyed, now, |from|);
      assert to[..|from|] + from[|from|..] == to;
    }
  }

  function VisibleColors(guesses: seq<GuessRow>, destroyed: set<Tile>): (r: seq<seq<Color>>)
    ensures |r| == |guesses|
  {
    seq(|guesses|, r requires 0 <= r < |guesses| =>
      seq(|guesses[r].colors|, c requires 0 <= c < |guesses[r].colors| =>
        if Tile(r, c) in destroyed then Hidden else guesses[r].colors[c]))
  }

  // ----- Mend: taking a guess back

  function Without<T>(s: seq<T>, row: nat): seq<T>
    requires row < |s|
  {
    s[..row] + s[row + 1..]
  }

  function MovedUp(t: Tile, row: int): Tile {
    if t.row > row then Tile(t.row - 1, t.col) else t
  }

  function MendedDestroyed(destroyed: set<Tile>, row: int): set<Tile> {
    set t | t in destroyed && t.row != row :: MovedUp(t, row)
  }

  lemma MendedTile(destroyed: set<Tile>, row: int, t: Tile)
    ensures t in MendedDestroyed(destroyed, row) <==> (if t.row >= row then Tile(t.row + 1, t.col) else t) in destroyed
  {
    var from := if t.row >= row then Tile(t.row + 1, t.col) else t;
    assert MovedUp(from, row) == t && from.row != row;
  }

  /** Mending commutes with looking: the visible board afterwards is the visible
      board before, without the row. */
  lemma MendVisible(guesses: seq<GuessRow>, destroyed: set<Tile>, row: nat)
    requires row < |guesses|
    ensures VisibleColors(Without(guesses, row), MendedDestroyed(destroyed, row))
         == Without(VisibleColors(guesses, destroyed), row)
  {
    var after := VisibleColors(Without(guesses, row), MendedDestroyed(destroyed, row));
    var before := VisibleColors(guesses, destroyed);
    forall r | 0 <= r < |after| ensures after[r] == Without(before, row)[r] {
      var from := if r >= row then r + 1 else r;
      assert Without(guesses, row)[r] == guesses[from] && Without(before, row)[r] == before[from];
      forall c | 0 <= c < |after[r]| ensures after[r][c] == before[from][c] {
        MendedTile(destroyed, row, Tile(r, c));
      }
    }
  }

  /** A tile off the mended row keeps its letter, its color and whether it's visible. */
  lemma MendFollows(guesses: seq<GuessRow>, destroyed: set<Tile>, row: nat, t: Tile)
    requires row < |guesses| && 0 <= t.row < |guesses| && t.row != row
    ensures 0 <= MovedUp(t, row).row < |Without(guesses, row)|
    ensures Without(guesses, row)[MovedUp(t, row).row] == guesses[t.row]
    ensures Visible(Without(guesses, row), MendedDestroyed(destroyed, row), MovedUp(t, row))
        <==> Visible(guesses, destroyed, t)
  {
    MendedTile(destroyed, row, MovedUp(t, row));
  }

  lemma MendKeepsDestroyed(guesses: seq<GuessRow>, destroyed: set<Tile>, row: nat)
    requires row < |guesses| && DestroyedOk(guesses, destroyed)
    ensures DestroyedOk(Without(guesses, row), MendedDestroyed(destroyed, row))
  {
    forall t | t in MendedDestroyed(destroyed, row)
      ensures 0 <= t.row < |Without(guesses, row)| && 0 <= t.col < |Without(guesses, row)[t.row].colors|
    {
      var from :| from in destroyed && from.row != row && MovedUp(from, row) == t;
      MendFollows(guesses, destroyed, row, from);
    }
  }

  /** The eyes on a mended board: those on the row are aimed again when their turn
      comes, those below it follow their letter up. */
  ghost predicate EyesMended(from: seq<Eye>, to: seq<Eye>, row: int, guesses: seq<GuessRow>, destroyed: set<Tile>, now: Time) {
    && |to| == |from|
    && forall k | 0 <= k < |from| ::
         if from[k].on && from[k].at.row == row
         then Aimed(to[..k] + from[k..], guesses, destroyed, k, now, from[k], to[k])
         else to[k] == if from[k].on then from[k].(at := MovedUp(from[k].at, row)) else from[k]
  }

  /** Every eye is still on a letter it may see, and an eye off the mended row is on
      the letter it was on before. */
  lemma MendKeepsEyes(from: seq<Eye>, to: seq<Eye>, row: nat, guesses: seq<GuessRow>, destroyed: set<Tile>, now: Time)
    requires row < |guesses| && EyesOk(from, guesses, destroyed)
    requires EyesMended(from, to, row, Without(guesses, row), MendedDestroyed(destroyed, row), now)
    ensures EyesOk(to, Without(guesses, row), MendedDestroyed(destroyed, row))
    ensures forall k | 0 <= k < |from| && from[k].on && from[k].at.row != row ::
              to[k].on && Without(guesses, row)[to[k].at.row] == guesses[from[k].at.row] && to[k].at.col == from[k].at.col
  {
    forall k | 0 <= k < |from| && from[k].on && from[k].at.row != row
      ensures to[k].on && 0 <= to[k].at.row < |guesses| - 1
      ensures Without(guesses, row)[to[k].at.row] == guesses[from[k].at.row] && to[k].at.col == from[k].at.col
      ensures Visible(Without(guesses, row), MendedDestroyed(destroyed, row), to[k].at)
    {
      assert Visible(guesses, destroyed, from[k].at);
      MendFollows(guesses, destroyed, row, from[k].at);
    }
  }

  // ----- Mend forgets nothing, and exactly when that is too much

  lemma {:induction false} MaxClosenessLeast(guesses: seq<GuessRow>, bound: real)
    requires bound >= 0.0 && forall r | 0 <= r < |guesses| :: Elo.Closeness(guesses[r].colors) <= bound
    ensures MaxCloseness(guesses) <= bound
  {
    if guesses != [] {
      MaxClosenessLeast(guesses[..|guesses| - 1], bound);
    }
  }

  lemma {:induction false} MaxClosenessNonNegative(guesses: seq<GuessRow>)
    ensures MaxCloseness(guesses) >= 0.0
  {
    if guesses != [] {
      MaxClosenessNonNegative(guesses[..|guesses| - 1]);
    }
  }

  /** A guess off the row is among the others. */
  lemma OtherRow(guesses: seq<GuessRow>, row: nat, r: nat)
    requires row < |guesses| && r < |guesses| && r != row
    ensures var k := if r < row then r else r - 1; k < |Without(guesses, row)| && Without(guesses, row)[k] == guesses[r]
  {
  }

  lemma ShownGreenSplits(guesses: seq<GuessRow>, row: nat, i: nat)
    requires row < |guesses|
    ensures ShownGreen(guesses, i) <==>
              ShownGreen(Without(guesses, row), i) || (i < |guesses[row].colors| && guesses[row].colors[i] == Green)
  {
    if ShownGreen(guesses, i) {
      var r :| 0 <= r < |guesses| && i < |guesses[r].colors| && guesses[r].colors[i] == Green;
      if r != row {
        OtherRow(guesses, row, r);
      }
    }
    if ShownGreen(Without(guesses, row), i) {
      var k :| 0 <= k < |guesses| - 1 && i < |Without(guesses, row)[k].colors| && Without(guesses, row)[k].colors[i] == Green;
      OtherRow(guesses, row, if k < row then k else k + 1);
    }
  }

  lemma ShownLetterSplits(guesses: seq<GuessRow>, row: nat, l: char)
    requires row < |guesses|
    ensures ShownLetter(guesses, l) <==> ShownLetter(Without(guesses, row), l) || ShownIn(guesses[row], l)
  {
    hide ShownIn;
    if ShownLetter(guesses, l) {
      var r :| 0 <= r < |guesses| && ShownIn(guesses[r], l);
      if r != row {
        OtherRow(guesses, row, r);
      }
    }
    if ShownLetter(Without(guesses, row), l) {
      var k :| 0 <= k < |guesses| - 1 && ShownIn(Without(guesses, row)[k], l);
      OtherRow(guesses, row, if k < row then k else k + 1);
    }
  }

  lemma OthersAre(guesses: seq<GuessRow>, row: nat)
    requires row < |guesses|
    ensures forall k: nat | k < |Without(guesses, row)| ::
              (if k < row then k else k + 1) < |guesses|
              && Without(guesses, row)[k] == guesses[if k < row then k else k + 1]
  {
  }

  lemma MaxClosenessSplits(guesses: seq<GuessRow>, row: nat)
    requires row < |guesses|
    ensures var rest, c := MaxCloseness(Without(guesses, row)), Elo.Closeness(guesses[row].colors);
            MaxCloseness(guesses) == if rest < c then c else rest
  {
    hide MaxCloseness, Elo.Closeness, Without;
    var others := Without(guesses, row);
    var rest, c := MaxCloseness(others), Elo.Closeness(guesses[row].colors);
    MaxClosenessBounds(guesses);
    MaxClosenessBounds(others);
    MaxClosenessNonNegative(guesses);
    MaxClosenessNonNegative(others);
    forall r: nat | r < |guesses| ensures Elo.Closeness(guesses[r].colors) <= if rest < c then c else rest {
      if r != row {
        OtherRow(guesses, row, r);
      }
    }
    MaxClosenessLeast(guesses, if rest < c then c else rest);
    OthersAre(guesses, row);
    forall k: nat | k < |others| ensures Elo.Closeness(others[k].colors) <= MaxCloseness(guesses) {
    }
    MaxClosenessLeast(others, MaxCloseness(guesses));
  }

  /** The other guesses show all that this one does: its greens, its letters, and
      something as close. */
  ghost predicate ShowsNothingNew(guesses: seq<GuessRow>, row: nat)
    requires row < |guesses|
  {
    var g, others := guesses[row], Without(guesses, row);
    && (forall i: nat | i < |g.colors| && g.colors[i] == Green :: ShownGreen(others, i))
    && (forall l: char | ShownIn(g, l) :: ShownLetter(others, l))
    && Elo.Closeness(g.colors) <= MaxCloseness(others)
  }

  /** Mend leaves what is known exactly what the remaining guesses show if and only if the
      guess taken back showed nothing new. */
  lemma MendExactly(word: Word, guesses: seq<GuessRow>, row: nat, greens: seq<bool>, found: set<char>, best: real)
    requires row < |guesses| && RowsOk(word, guesses) && |greens| == |word| && ExactlyShown(guesses, greens, found, best)
    ensures ExactlyShown(Without(guesses, row), greens, found, best) <==> ShowsNothingNew(guesses, row)
  {
    var g, others := guesses[row], Without(guesses, row);
    assert |g.colors| == |greens| by {
      assert RowOk(g, word);
    }
    hide RowsOk, ShownGreen, ShownIn, ShownLetter, Without, MaxCloseness;
    forall i: nat ensures ShownGreen(guesses, i) <==> ShownGreen(others, i) || (i < |g.colors| && g.colors[i] == Green) {
      ShownGreenSplits(guesses, row, i);
    }
    forall l: char ensures ShownLetter(guesses, l) <==> ShownLetter(others, l) || ShownIn(g, l) {
      ShownLetterSplits(guesses, row, l);
    }
    MaxClosenessSplits(guesses, row);
  }

  // ----- Mend can put two eyes on one letter, and exactly when

  /** An eye on the mended row, aimed while eye j below still has its old row number,
      may be sent where eye j is about to follow its letter, unless a later eye is
      watching that tile by its old number. */
  predicate Collides(eyes: seq<Eye>, row: int, i: int, j: int) {
    && 0 <= i < j < |eyes|
    && eyes[i].on && eyes[i].at.row == row
    && eyes[j].on && eyes[j].at.row > row
    && !(exists k | i < k < |eyes| :: eyes[k].on && eyes[k].at == MovedUp(eyes[j].at, row))
  }

  predicate MayCollide(eyes: seq<Eye>, row: int) {
    exists i, j | 0 <= i < |eyes| && 0 <= j < |eyes| :: Collides(eyes, row, i, j)
  }

  lemma MendKeepsDistinct(from: seq<Eye>, to: seq<Eye>, row: nat, guesses: seq<GuessRow>, destroyed: set<Tile>, now: Time)
    requires row < |guesses| && EyesOk(from, guesses, destroyed) && EyesDistinct(from)
    requires EyesMended(from, to, row, Without(guesses, row), MendedDestroyed(destroyed, row), now)
    requires !MayCollide(from, row)
    ensures EyesDistinct(to)
  {
    forall p, q | 0 <= p < q < |to| && to[p].on && to[q].on
      ensures to[p].at != to[q].at
    {
      var midP, midQ := to[..p] + from[p..], to[..q] + from[q..];
      if from[q].on && from[q].at.row == row {
        assert midQ[p] == to[p];
      } else if from[p].on && from[p].at.row == row {
        assert midP[q] == from[q];
        if from[q].at.row > row {
          assert !Collides(from, row, p, q);
          var k :| p < k < |from| && from[k].on && from[k].at == to[q].at;
          assert midP[k] == from[k];
        }
      } else {
        assert from[p].at != from[q].at;
      }
    }
  }

  /** Any eye can be aimed somehow. */
  lemma SomeAim(eyes: seq<Eye>, guesses: seq<GuessRow>, destroyed: set<Tile>, k: int, now: Time, from: Eye) returns (to: Eye)
    ensures Aimed(eyes, guesses, destroyed, k, now, from, to)
  {
    if t :| CanLookAt(eyes, guesses, destroyed, k, t) {
      to := Eye(t, true, now + EYE_INTERVAL);
    } else {
      to := Eye(from.at, false, now + EYE_INTERVAL);
    }
  }

  /** A roll of the dice for which the eyes i and j, or an earlier eye and j, end up together. */
  lemma MendCollision(from: seq<Eye>, row: nat, guesses: seq<GuessRow>, destroyed: set<Tile>, now: Time, i: nat, j: nat)
    returns (to: seq<Eye>)
    requires row < |guesses| && EyesOk(from, guesses, destroyed)
    requires Collides(from, row, i, j)
    ensures EyesMended(from, to, row, Without(guesses, row), MendedDestroyed(destroyed, row), now)
    ensures !EyesDistinct(to)
  {
    var guesses', destroyed' := Without(guesses, row), MendedDestroyed(destroyed, row);
    var t := MovedUp(from[j].at, row);
    MendFollows(guesses, destroyed, row, from[j].at);
    to := [];
    ghost var hit := 0;
    while |to| < |from|
      invariant |to| <= |from|
      invariant forall k | 0 <= k < |to| ::
         if from[k].on && from[k].at.row == row
         then Aimed(to[..k] + from[k..], guesses', destroyed', k, now, from[k], to[k])
         else to[k] == if from[k].on then from[k].(at := MovedUp(from[k].at, row)) else from[k]
      invariant |to| > i ==> 0 <= hit <= i && to[hit].on && to[hit].at == t
      decreases |from| - |to|
    {
      var k := |to|;
      var mid := to + from[k..];
      var next := if from[k].on then from[k].(at := MovedUp(from[k].at, row)) else from[k];
      if from[k].on && from[k].at.row == row {
        if k == i && !Watching(mid, t, i) {
          next := Eye(t, true, now + EYE_INTERVAL);
          hit := i;
          assert CanLookAt(mid, guesses', destroyed', i, t);
        } else {
          next := SomeAim(mid, guesses', destroyed', k, now, from[k]);
          if k == i {
            hit :| 0 <= hit < |mid| && hit != i && mid[hit].on && mid[hit].at == t;
            assert hit < i;
          }
        }
      }
      assert (to + [next])[..k] == to;
      assert forall p | 0 <= p < k :: (to + [next])[..p] == to[..p];
      to := to + [next];
    }
    assert to[j].at == t && to[j].on && hit < j;
  }

  /** Mend keeps eyes on different letters, whatever the dice, exactly when no pair of
      eyes may collide. */
  lemma MendDistinctExactly(from: seq<Eye>, row: nat, guesses: seq<GuessRow>, destroyed: set<Tile>, now: Time)
    requires row < |guesses| && EyesOk(from, guesses, destroyed) && EyesDistinct(from)
    ensures (forall to | EyesMended(from, to, row, Without(guesses, row), MendedDestroyed(destroyed, row), now) :: EyesDistinct(to))
        <==> !MayCollide(from, row)
  {
    if MayCollide(from, row) {
      var i: nat, j: nat :| Collides(from, row, i, j);
      var to := MendCollision(from, row, guesses, destroyed, now, i, j);
    } else {
      forall to | EyesMended(from, to, row, Without(guesses, row), MendedDestroyed(destroyed, row), now)
        ensures EyesDistinct(to)
      {
        MendKeepsDistinct(from, to, row, guesses, destroyed, now);
      }
    }
  }

  // ----- Keyboards

  predicate Permutation(keys: seq<char>) {
    && |keys| == 26
    && (forall i | 0 <= i < 26 :: 'A' <= keys[i] <= 'Z')
    && (forall i, j | 0 <= i < j < 26 :: keys[i] != keys[j])
  }

  predicate KeysOk(keymap: Option<seq<char>>, scrambledGuesses: int) {
    && 0 <= scrambledGuesses
    && (keymap.Some? <==> scrambledGuesses > 0)
    && (keymap.Some? ==> Permutation(keymap.value))
  }

  // ----- The invariant of one side, and of both

  predicate TricksOk(feint: Option<seq<Color>>, falseNext: Option<seq<Color>>, reshape: seq<Word>, illusion: Option<Illusion>, n: nat) {
    && PatternOk(feint, n) && PatternOk(falseNext, n)
    && (forall i | 0 <= i < |reshape| :: WordOk(reshape[i], n))
    && (illusion.Some? ==> illusion.value.word != [] && illusion.value.guesses < 6)
  }

  predicate SideOk(s: Side, n: nat) {
    && n > 0 && WordOk(s.word, n)
    && RowsOk(s.word, s.guesses)
    && KnowledgeOk(s.word, s.guesses, s.fx.greens, s.fx.found, s.best)
    && DestroyedOk(s.guesses, s.fx.destroyed)
    && TricksOk(s.fx.feint, s.fx.falseNext, s.fx.reshape, s.fx.illusion, n)
    && KeysOk(s.fx.keymap, s.fx.scrambledGuesses)
    && 0 <= s.fx.energy
  }

  /** Still playing: not solved, and no more guesses than rows. */
  predicate Playing(s: Side) {
    !s.solved && |s.guesses| <= s.rows
  }

  /** Each of one side's eyes is on a letter in the other side's guesses it may see. */
  predicate Watches(watcher: Side, target: Side) {
    EyesOk(watcher.fx.eyes, target.guesses, target.fx.destroyed)
  }

  predicate DuelOk(a: Side, b: Side, n: nat) {
    && SideOk(a, n) && SideOk(b, n)
    && Watches(a, b) && Watches(b, a)
    && Playing(a) && Playing(b) && !(a.Out() && b.Out())
  }
}
