/** Scoring a guess against a word (internal/puzzles/wordle/game.go).

Words are sequences of upper case letters. `Colors` says in closed form which
color each letter of a guess gets; `ColorsFor` is the two-pass counting loop
that computes it; `Fair` says what a coloring promises a player, and the lemmas
show that `Colors` is the one coloring that keeps those promises. */
module Wordle {

  datatype Color = Grey | Yellow | Green | Hidden

  type Word = seq<char>

  function UpperChar(c: char): char {
    if 'a' <= c <= 'z' then c - 'a' + 'A' else c
  }

  /** strings.ToUpper on ASCII letters. */
  function Upper(s: Word): (r: Word)
    ensures |r| == |s|
  {
    seq(|s|, i requires 0 <= i < |s| => UpperChar(s[i]))
  }

  predicate Letters(s: Word) {
    forall i | 0 <= i < |s| :: 'A' <= s[i] <= 'Z'
  }

  lemma UpperOfLetters(s: Word)
    requires Letters(s)
    ensures Upper(s) == s
  {
  }

  /** Case makes no difference, and only letters of either case become letters. */
  lemma UpperExactly(s: Word)
    ensures Upper(Upper(s)) == Upper(s)
    ensures Letters(Upper(s)) <==> forall i | 0 <= i < |s| :: 'A' <= s[i] <= 'Z' || 'a' <= s[i] <= 'z'
    ensures forall i | 0 <= i < |s| && 'a' <= s[i] <= 'z' :: Upper(s)[i] as int == s[i] as int - 32
  {
    forall i | 0 <= i < |s|
      ensures 'A' <= Upper(s)[i] <= 'Z' <==> 'A' <= s[i] <= 'Z' || 'a' <= s[i] <= 'z'
    {
    }
  }

  function Min(a: int, b: int): int {
    if a < b then a else b
  }

  /** How often letter l occurs in s. */
  function Count(s: Word, l: char): nat {
    if s == [] then 0
    else Count(s[..|s| - 1], l) + if s[|s| - 1] == l then 1 else 0
  }

  /** How many of the first n letters of guess are l and in place. */
  function Hits(guess: Word, word: Word, l: char, n: nat): nat
    requires n <= |guess| == |word|
  {
    if n == 0 then 0
    else Hits(guess, word, l, n - 1) + if guess[n - 1] == l == word[n - 1] then 1 else 0
  }

  /** How many of the first n letters of guess are l and not in place. */
  function Misses(guess: Word, word: Word, l: char, n: nat): nat
    requires n <= |guess| == |word|
  {
    if n == 0 then 0
    else Misses(guess, word, l, n - 1) + if guess[n - 1] == l != word[n - 1] then 1 else 0
  }

  function ColorAt(guess: Word, word: Word, i: nat): Color
    requires i < |guess| == |word|
  {
    if guess[i] == word[i] then Green
    else if Hits(guess, word, guess[i], |word|) + Misses(guess, word, guess[i], i) < Count(word, guess[i]) then Yellow
    else Grey
  }

  /** The colors of a guess. */
  function Colors(guess: Word, word: Word): (r: seq<Color>)
    requires |guess| == |word|
    ensures |r| == |word|
  {
    seq(|word|, i requires 0 <= i < |word| => ColorAt(guess, word, i))
  }

  /** How many of the first n letters of guess are l and have color k. */
  function Colored(guess: Word, colors: seq<Color>, k: Color, l: char, n: nat): nat
    requires n <= |guess| == |colors|
  {
    if n == 0 then 0
    else Colored(guess, colors, k, l, n - 1) + if guess[n - 1] == l && colors[n - 1] == k then 1 else 0
  }

  /** What a coloring promises: green exactly on letters in place; of each letter
      as many greens and yellows as guess and word share; yellows go to the
      leftmost letters out of place; nothing hidden. */
  ghost predicate Fair(guess: Word, word: Word, colors: seq<Color>)
    requires |guess| == |word|
  {
    && |colors| == |word|
    && (forall i | 0 <= i < |word| :: colors[i] == Green <==> guess[i] == word[i])
    && (forall i | 0 <= i < |word| :: colors[i] != Hidden)
    && (forall l: char ::
          Colored(guess, colors, Green, l, |word|) + Colored(guess, colors, Yellow, l, |word|)
          == Min(Count(guess, l), Count(word, l)))
    && (forall i, j | 0 <= i < j < |word| && guess[i] == guess[j] && colors[i] != Green && colors[j] == Yellow ::
          colors[i] == Yellow)
  }

  // ----- Colors is fair, and nothing else is

  lemma {:induction false} CountSplits(guess: Word, word: Word, l: char, n: nat)
    requires n <= |guess| == |word|
    ensures Hits(guess, word, l, n) + Misses(guess, word, l, n) == Count(guess[..n], l)
    ensures Hits(guess, word, l, n) <= Count(word[..n], l)
  {
    if n > 0 {
      CountSplits(guess, word, l, n - 1);
      assert guess[..n][..n - 1] == guess[..n - 1];
      assert word[..n][..n - 1] == word[..n - 1];
    }
  }

  lemma {:induction false} ColoredCounts(guess: Word, word: Word, l: char, n: nat)
    requires n <= |guess| == |word|
    ensures Colored(guess, Colors(guess, word), Green, l, n) == Hits(guess, word, l, n)
    ensures Colored(guess, Colors(guess, word), Yellow, l, n)
         == Min(Misses(guess, word, l, n), Count(word, l) - Hits(guess, word, l, |word|))
  {
    CountSplits(guess, word, l, |word|);
    assert word[..|word|] == word;
    if n > 0 {
      ColoredCounts(guess, word, l, n - 1);
    }
  }

  lemma {:induction false} MissesGrow(guess: Word, word: Word, l: char, m: nat, n: nat)
    requires m <= n <= |guess| == |word|
    ensures Misses(guess, word, l, m) <= Misses(guess, word, l, n)
  {
    if m < n {
      MissesGrow(guess, word, l, m, n - 1);
    }
  }

  lemma ColorsFair(guess: Word, word: Word)
    requires |guess| == |word|
    ensures Fair(guess, word, Colors(guess, word))
  {
    var colors := Colors(guess, word);
    forall l: char
      ensures Colored(guess, colors, Green, l, |word|) + Colored(guess, colors, Yellow, l, |word|)
           == Min(Count(guess, l), Count(word, l))
    {
      ColoredCounts(guess, word, l, |word|);
      CountSplits(guess, word, l, |word|);
      assert guess[..|word|] == guess && word[..|word|] == word;
    }
    forall i, j | 0 <= i < j < |word| && guess[i] == guess[j] && colors[i] != Green && colors[j] == Yellow
      ensures colors[i] == Yellow
    {
      MissesGrow(guess, word, guess[i], i, j);
    }
  }

  lemma {:induction false} ColoredGrows(guess: Word, colors: seq<Color>, k: Color, l: char, m: nat, n: nat)
    requires m <= n <= |guess| == |colors|
    ensures Colored(guess, colors, k, l, m) <= Colored(guess, colors, k, l, n)
    ensures (forall j | m <= j < n :: !(guess[j] == l && colors[j] == k)) ==>
              Colored(guess, colors, k, l, m) == Colored(guess, colors, k, l, n)
  {
    if m < n {
      ColoredGrows(guess, colors, k, l, m, n - 1);
    }
  }

  lemma {:induction false} ColoredAgree(guess: Word, c: seq<Color>, d: seq<Color>, k: Color, l: char, n: nat)
    requires n <= |guess| == |c| == |d|
    requires forall i | 0 <= i < n :: (c[i] == k) == (d[i] == k)
    ensures Colored(guess, c, k, l, n) == Colored(guess, d, k, l, n)
  {
    if n > 0 {
      ColoredAgree(guess, c, d, k, l, n - 1);
    }
  }

  /** Two fair colorings cannot first differ where one is yellow and the other is not. */
  lemma NoFirstDifference(guess: Word, word: Word, c: seq<Color>, d: seq<Color>, i: nat)
    requires i < |guess| == |word|
    requires Fair(guess, word, c) && Fair(guess, word, d)
    requires c[..i] == d[..i]
    requires c[i] == Yellow
    ensures d[i] == Yellow
  {
    var l, n := guess[i], |word|;
    if d[i] != Yellow {
      assert d[i] != Green;
      ColoredAgree(guess, c, d, Green, l, n);
      forall k | 0 <= k < i ensures c[k] == d[k] {
        assert c[k] == c[..i][k] == d[..i][k];
      }
      ColoredAgree(guess, c, d, Yellow, l, i);
      ColoredGrows(guess, d, Yellow, l, i, n);
      ColoredGrows(guess, c, Yellow, l, i + 1, n);
      assert false;
    }
  }

  /** Fair colorings that agree up to i agree at i. */
  lemma AgreeAt(guess: Word, word: Word, c: seq<Color>, d: seq<Color>, i: nat)
    requires i < |guess| == |word|
    requires Fair(guess, word, c) && Fair(guess, word, d)
    requires c[..i] == d[..i]
    ensures c[i] == d[i]
  {
    if c[i] == Yellow {
      NoFirstDifference(guess, word, c, d, i);
    } else if d[i] == Yellow {
      NoFirstDifference(guess, word, d, c, i);
    }
  }

  /** Fair colorings of the same guess agree on every prefix. */
  lemma {:induction false} FairPrefix(guess: Word, word: Word, c: seq<Color>, d: seq<Color>, n: nat)
    requires n <= |guess| == |word|
    requires Fair(guess, word, c) && Fair(guess, word, d)
    ensures c[..n] == d[..n]
  {
    if n > 0 {
      FairPrefix(guess, word, c, d, n - 1);
      AgreeAt(guess, word, c, d, n - 1);
      assert c[..n] == c[..n - 1] + [c[n - 1]];
      assert d[..n] == d[..n - 1] + [d[n - 1]];
    }
  }

  /** The promises pin the coloring down. */
  lemma FairIsColors(guess: Word, word: Word, colors: seq<Color>)
    requires |guess| == |word|
    ensures Fair(guess, word, colors) <==> colors == Colors(guess, word)
  {
    ColorsFair(guess, word);
    if Fair(guess, word, colors) {
      FairPrefix(guess, word, colors, Colors(guess, word), |word|);
      assert colors[..|word|] == colors && Colors(guess, word)[..|word|] == Colors(guess, word);
    }
  }

  // ----- Solving

  /** All green, and not empty. */
  predicate Solves(colors: seq<Color>) {
    |colors| > 0 && forall i | 0 <= i < |colors| :: colors[i] == Green
  }

  lemma SolvesExactly(guess: Word, word: Word)
    requires |guess| == |word|
    ensures Solves(Colors(guess, word)) <==> guess == word && word != []
  {
    var c := Colors(guess, word);
    if Solves(c) {
      forall i | 0 <= i < |word| ensures guess[i] == word[i] {
        assert c[i] == Green;
      }
    }
  }

  lemma {:induction false} CountPositive(s: Word, l: char)
    ensures Count(s, l) > 0 <==> l in s
  {
    if s != [] {
      CountPositive(s[..|s| - 1], l);
      assert s == s[..|s| - 1] + [s[|s| - 1]];
    }
  }

  /** A green or yellow letter is in the word. */
  lemma ColoredLetterInWord(guess: Word, word: Word, i: nat)
    requires i < |guess| == |word|
    requires Colors(guess, word)[i] != Grey
    ensures guess[i] in word
  {
    if guess[i] != word[i] {
      CountPositive(word, guess[i]);
    }
  }

  // ----- The loops

  /** A letter count in a Go map: zero for a missing key. */
  function Get(m: map<char, nat>, l: char): nat {
    if l in m then m[l] else 0
  }

  /** How many of the first n letters of guess and all of word's greens have been
      given out to letter l after the yellow pass reached n. */
  function Given(guess: Word, word: Word, l: char, n: nat): nat
    requires n <= |guess| == |word|
  {
    var g := Hits(guess, word, l, |word|) + Misses(guess, word, l, n);
    if g < Count(word, l) then g else Count(word, l)
  }

  method CountLetters(word: Word) returns (counts: map<char, nat>)
    ensures forall l: char :: Get(counts, l) == Count(word, l)
  {
    counts := map[];
    for i := 0 to |word|
      invariant forall l: char :: Get(counts, l) == Count(word[..i], l)
    {
      assert word[..i + 1][..i] == word[..i];
      counts := counts[word[i] := Get(counts, word[i]) + 1];
    }
    assert word[..|word|] == word;
  }

  /** The first pass: greens, and how many of each letter they take. */
  method Greens(guess: Word, word: Word) returns (colors: seq<Color>, counted: map<char, nat>)
    requires |guess| == |word|
    ensures |colors| == |word|
    ensures forall k | 0 <= k < |word| :: colors[k] == if guess[k] == word[k] then Green else Grey
    ensures forall l: char :: Get(counted, l) == Given(guess, word, l, 0)
  {
    colors := seq(|word|, _ => Grey);
    counted := map[];
    for i := 0 to |guess|
      invariant |colors| == |word|
      invariant forall k | 0 <= k < |word| :: colors[k] == if k < i && guess[k] == word[k] then Green else Grey
      invariant forall l: char :: Get(counted, l) == Hits(guess, word, l, i)
    {
      if guess[i] == word[i] {
        colors := colors[i := Green];
        counted := counted[guess[i] := Get(counted, guess[i]) + 1];
      }
    }
    forall l: char ensures Given(guess, word, l, 0) == Hits(guess, word, l, |word|) {
      CountSplits(guess, word, l, |word|);
      assert word[..|word|] == word;
    }
  }

  method ColorsFor(guess: Word, word: Word) returns (colors: seq<Color>)
    requires |guess| == |word|
    ensures colors == Colors(guess, word)
  {
    hide Count;
    var letterCounts := CountLetters(word);
    var counted: map<char, nat>;
    colors, counted := Greens(guess, word);
    // yellows
    for i := 0 to |guess|
      invariant |colors| == |word|
      invariant forall k | 0 <= k < i :: colors[k] == ColorAt(guess, word, k)
      invariant forall k | i <= k < |word| :: colors[k] == if guess[k] == word[k] then Green else Grey
      invariant forall l: char :: Get(counted, l) == Given(guess, word, l, i)
    {
      ghost var before := counted;
      if colors[i] == Grey && Get(counted, guess[i]) < Get(letterCounts, guess[i]) {
        colors := colors[i := Yellow];
        counted := counted[guess[i] := Get(counted, guess[i]) + 1];
      }
      forall l: char ensures Get(counted, l) == Given(guess, word, l, i + 1) {
        assert Get(before, l) == Given(guess, word, l, i);
      }
    }
    assert colors == Colors(guess, word);
  }

  /** The textbook algorithm, which the duel tests use as their puzzle: take the
      letters out of place from a pool of what greens left over. */
  method PoolColors(guess: Word, word: Word) returns (colors: seq<Color>)
    requires |guess| == |word|
    ensures colors == Colors(guess, word)
  {
    hide Count;
    var left: map<char, nat>;
    colors, left := GreensAndPool(guess, word);
    for i := 0 to |word|
      invariant |colors| == |word|
      invariant forall k | 0 <= k < i :: colors[k] == ColorAt(guess, word, k)
      invariant forall k | i <= k < |word| :: colors[k] == if guess[k] == word[k] then Green else Grey
      invariant forall l: char :: Get(left, l) + Given(guess, word, l, i) == Count(word, l)
    {
      if colors[i] != Green && Get(left, guess[i]) > 0 {
        colors := colors[i := Yellow];
        left := left[guess[i] := Get(left, guess[i]) - 1];
      }
    }
    assert colors == Colors(guess, word);
  }

  method GreensAndPool(guess: Word, word: Word) returns (colors: seq<Color>, left: map<char, nat>)
    requires |guess| == |word|
    ensures |colors| == |word|
    ensures forall k | 0 <= k < |word| :: colors[k] == if guess[k] == word[k] then Green else Grey
    ensures forall l: char :: Get(left, l) + Given(guess, word, l, 0) == Count(word, l)
  {
    colors := seq(|word|, _ => Grey);
    left := map[];
    for i := 0 to |word|
      invariant |colors| == |word|
      invariant forall k | 0 <= k < |word| :: colors[k] == if k < i && guess[k] == word[k] then Green else Grey
      invariant forall l: char :: Get(left, l) + Hits(guess, word, l, i) == Count(word[..i], l)
    {
      assert word[..i + 1][..i] == word[..i];
      if guess[i] == word[i] {
        colors := colors[i := Green];
      } else {
        left := left[word[i] := Get(left, word[i]) + 1];
      }
    }
    assert word[..|word|] == word;
  }

  // ----- Scoring what a client sends

  /** A scored guess; colors is [] when the guess isn't valid. */
  datatype Scored = Scored(valid: bool, colors: seq<Color>)

  predicate Guessable(guess: Word, word: Word, dictionary: set<Word>) {
    |guess| == |word| && Upper(guess) in dictionary
  }

  method Score(guess: Word, word: Word, dictionary: set<Word>) returns (r: Scored)
    ensures r.valid <==> Guessable(guess, word, dictionary)
    ensures r.valid ==> Fair(Upper(guess), word, r.colors)
    ensures !r.valid ==> r.colors == []
  {
    var up := Upper(guess);
    if |up| != |word| || up !in dictionary {
      return Scored(false, []);
    }
    var colors := ColorsFor(up, word);
    FairIsColors(up, word, colors);
    return Scored(true, colors);
  }

  method ScoreAny(guess: Word, word: Word) returns (r: Scored)
    ensures r.valid <==> |guess| == |word| && Letters(Upper(guess))
    ensures r.valid ==> Fair(Upper(guess), word, r.colors)
    ensures !r.valid ==> r.colors == []
  {
    var up := Upper(guess);
    if |up| != |word| {
      return Scored(false, []);
    }
    for i := 0 to |up|
      invariant forall k | 0 <= k < i :: 'A' <= up[k] <= 'Z'
    {
      if up[i] < 'A' || up[i] > 'Z' {
        return Scored(false, []);
      }
    }
    var colors := ColorsFor(up, word);
    FairIsColors(up, word, colors);
    return Scored(true, colors);
  }
}
