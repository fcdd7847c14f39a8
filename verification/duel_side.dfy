/** One side of a duel as the object the world keeps
(internal/game/duel.go:53-66, internal/game/abilities.go, internal/game/rogue.go).

Each method says what the whole new side is: `State()` is the side as a value, so
`State() == old(State()).(f := x)` changes f and nothing else. */
module DuelSides {
  import opened Wordle
  import opened Boards
  import Elo

  const MISSILE_ENERGY := 5
  const SCRAMBLE_GUESSES := 2
  /** "ABCDEFGHIJKLMNOPQRSTUVWXYZ" */
  function Alphabet(): seq<char> {
    seq(26, i requires 0 <= i < 26 => 'A' + i as char)
  }

  predicate WordsOk(guesses: seq<GuessRow>, n: nat) {
    forall r | 0 <= r < |guesses| :: WordOk(guesses[r].word, n)
  }

  function RescoredRows(guesses: seq<GuessRow>, word: Word): seq<GuessRow>
    requires WordsOk(guesses, |word|)
  {
    seq(|guesses|, r requires 0 <= r < |guesses| => TrueRow(guesses[r].word, Colors(guesses[r].word, word)))
  }

  /** A rescored guess shows its real colors to everyone, fakes and all. */
  lemma RescoredOk(guesses: seq<GuessRow>, word: Word)
    requires WordsOk(guesses, |word|)
    ensures RowsOk(word, RescoredRows(guesses, word))
  {
  }

  // ----- Missiles

  predicate Due(at: Time, now: Time) {
    at <= now
  }

  function DueCount(missiles: seq<Time>, now: Time): nat {
    if missiles == [] then 0
    else DueCount(missiles[..|missiles| - 1], now) + if Due(missiles[|missiles| - 1], now) then 1 else 0
  }

  function Flying(missiles: seq<Time>, now: Time): seq<Time> {
    if missiles == [] then []
    else
      var last := missiles[|missiles| - 1];
      Flying(missiles[..|missiles| - 1], now) + if Due(last, now) then [] else [last]
  }

  /** What k missiles that land do: a shield stops the first; each of the others takes
      MISSILE_ENERGY, as far as there is any, and a row unless it is the last unused one. */
  function Struck(s: Side, k: nat): Side {
    var hits := if s.fx.shield && k > 0 then k - 1 else k;
    s.(rows := if s.UnusedRows() >= 1 then s.rows - Min(hits, s.UnusedRows() - 1) else s.rows,
       fx := s.fx.(shield := s.fx.shield && k == 0,
                   energy := if s.fx.energy <= MISSILE_ENERGY * hits then Min(s.fx.energy, 0)
                             else s.fx.energy - MISSILE_ENERGY * hits))
  }

  function Unshielded(s: Side): Side {
    s.(fx := s.fx.(shield := false))
  }

  /** One missile: stopped by a shield, or it takes energy and, if it isn't the last
      unused one, a row. */
  function MissileLanded(s: Side): Side {
    if s.fx.shield then Unshielded(s)
    else s.(rows := if s.UnusedRows() >= 2 then s.rows - 1 else s.rows,
            fx := s.fx.(energy := s.fx.energy - Min(MISSILE_ENERGY, s.fx.energy)))
  }

  lemma StruckOnce(s: Side, k: nat)
    requires 0 <= s.fx.energy
    ensures Struck(s, k + 1) == MissileLanded(Struck(s, k))
  {
  }

  // ----- What letters have paid

  /** Energy paid for letters since the word was set or the slate wiped, since the word was
      set, and how many wipes there were since then. */
  datatype Account = Account(earned: nat, total: nat, wipes: nat)

  function Opened(): Account {
    Account(0, 0, 0)
  }

  function Credited(acc: Account, n: nat): Account {
    acc.(earned := acc.earned + n, total := acc.total + n)
  }

  function WipedAccount(acc: Account): Account {
    Account(0, acc.total, acc.wipes + 1)
  }

  /** What `wipes` wordfuls of letters are worth. */
  function Worth(wipes: nat, word: Word): nat {
    wipes * MostLetterEnergy(word)
  }

  /** What was paid, plus what the letters left can still pay, is no more than the word is
      worth; and over all, no more than it is worth once for every wipe besides. */
  predicate AccountOk(acc: Account, word: Word, greens: seq<bool>, found: set<char>) {
    && |greens| == |word|
    && acc.earned + Potential(word, greens, found) <= MostLetterEnergy(word)
    && acc.total <= Worth(acc.wipes, word) + acc.earned
  }

  lemma AccountOpens(word: Word, greens: seq<bool>, found: set<char>)
    requires |greens| == |word|
    ensures AccountOk(Opened(), word, greens, found)
  {
    PotentialAtMost(word, greens, found);
  }

  lemma AccountCredits(acc: Account, word: Word, greens: seq<bool>, found: set<char>, g: GuessRow)
    requires RowOk(g, word) && AccountOk(acc, word, greens, found)
    ensures AccountOk(Credited(acc, Gain(greens, found, g)), word, LearnedGreens(greens, g.colors), LearnedFound(greens, found, g))
    ensures AccountOk(acc, word, LearnedGreens(greens, g.colors), LearnedFound(greens, found, g))
  {
    GainFromPotential(word, greens, found, g);
  }

  lemma AccountWipes(acc: Account, word: Word, greens: seq<bool>, found: set<char>)
    requires AccountOk(acc, word, greens, found)
    ensures AccountOk(WipedAccount(acc), word, NoGreens(|word|), {})
  {
    PotentialAtMost(word, NoGreens(|word|), {});
    assert Worth(acc.wipes + 1, word) == Worth(acc.wipes, word) + MostLetterEnergy(word);
  }

  /** With the account in order, no wordful of letters was paid for twice between wipes. */
  lemma AccountBounds(acc: Account, word: Word, greens: seq<bool>, found: set<char>)
    requires AccountOk(acc, word, greens, found)
    ensures acc.earned <= MostLetterEnergy(word)
    ensures acc.total <= (1 + acc.wipes) * MostLetterEnergy(word)
  {
    assert (1 + acc.wipes) * MostLetterEnergy(word) == Worth(acc.wipes, word) + MostLetterEnergy(word);
  }

  // ----- Keyboards

  function Swapped(keys: seq<char>, i: nat, j: nat): seq<char>
    requires i < |keys| && j < |keys|
  {
    keys[i := keys[j]][j := keys[i]]
  }

  ghost predicate KeysSwapped(from: seq<char>, to: seq<char>) {
    |from| == 26 && exists i: nat, j: nat | i < 26 && j < 26 && i != j :: to == Swapped(from, i, j)
  }

  /** What Sneaky does: two keys swap, starting from the plain keyboard if there is no scramble. */
  ghost predicate KeysTurned(from: Option<seq<char>>, to: Option<seq<char>>) {
    to.Some? && KeysSwapped(if from.Some? then from.value else Alphabet(), to.value)
  }

  lemma SwapKeepsPermutation(keys: seq<char>, i: nat, j: nat)
    requires Permutation(keys) && i < 26 && j < 26
    ensures Permutation(Swapped(keys, i, j))
  {
    var to := Swapped(keys, i, j);
    forall k, m | 0 <= k < m < 26 ensures to[k] != to[m] {
      var k', m' := if k == i then j else if k == j then i else k, if m == i then j else if m == j then i else m;
      assert to[k] == keys[k'] && to[m] == keys[m'] && k' != m';
    }
  }

  class DuelSide {
    const kind: Kind
    var word: Word
    var guesses: seq<GuessRow>
    var rows: int
    var solved: bool
    var best: real
    var fx: SideEffects
    ghost var account: Account

    function State(): Side
      reads this
    {
      Side(kind, word, guesses, rows, solved, best, fx)
    }

    ghost predicate Ledger()
      reads this
    {
      AccountOk(account, word, fx.greens, fx.found)
    }

    lemma LedgerShape()
      requires Ledger()
      ensures |fx.greens| == |word|
    {
    }

    constructor (kind: Kind, word: Word, rows: int)
      ensures State() == Side(kind, word, [], rows, false, 0.0, NewSideEffects(|word|))
      ensures Ledger() && account == Opened()
    {
      this.kind := kind;
      this.word, this.rows := word, rows;
      guesses, solved, best, fx := [], false, 0.0, NewSideEffects(|word|);
      account := Opened();
      AccountOpens(word, NoGreens(|word|), {});
    }

    method Stun(until: Time)
      modifies this`fx
      ensures fx == old(fx).(stunnedUntil := if until > old(fx.stunnedUntil) then until else old(fx.stunnedUntil))
    {
      if until > fx.stunnedUntil {
        fx := fx.(stunnedUntil := until);
      }
    }

    method LoseEnergy(n: int) returns (lost: int)
      modifies this`fx
      ensures lost == Min(n, old(fx.energy))
      ensures fx == old(fx).(energy := old(fx.energy) - lost)
    {
      lost := if n < fx.energy then n else fx.energy;
      fx := fx.(energy := fx.energy - lost);
    }

    method MarkFound(letter: char) returns (isNew: bool)
      modifies this`fx
      ensures isNew <==> 'A' <= letter <= 'Z' && letter !in old(fx.found)
      ensures fx == if isNew then old(fx).(found := old(fx.found) + {letter}) else old(fx)
    {
      if letter < 'A' || letter > 'Z' || letter in fx.found {
        return false;
      }
      fx := fx.(found := fx.found + {letter});
      return true;
    }

    /** The first pass over a guess: new green positions, their letters, what they're worth. */
    method LearnGreens(g: GuessRow) returns (newGreen: bool, gain: nat)
      requires |g.word| == |g.colors| == |fx.greens| && Letters(g.word)
      modifies this`fx
      ensures fx == old(fx).(greens := LearnedGreens(old(fx.greens), g.colors),
                             found := WithGreens(old(fx.found), old(fx.greens), g, |g.word|))
      ensures gain == GREEN_ENERGY * NewGreenCount(old(fx.greens), g.colors, |g.word|)
      ensures newGreen <==> gain > 0
    {
      gain := 0;
      newGreen := false;
      ghost var greens, found := fx.greens, fx.found;
      for i := 0 to |g.colors|
        invariant |fx.greens| == |greens|
        invariant fx == old(fx).(greens := fx.greens, found := WithGreens(found, greens, g, i))
        invariant forall k | 0 <= k < |greens| :: fx.greens[k] == (greens[k] || (k < i && g.colors[k] == Green))
        invariant gain == GREEN_ENERGY * NewGreenCount(greens, g.colors, i)
        invariant newGreen <==> gain > 0
      {
        if g.colors[i] == Green && i < |fx.greens| && !fx.greens[i] {
          fx := fx.(greens := fx.greens[i := true]);
          newGreen := true;
          gain := gain + GREEN_ENERGY;
          var _ := MarkFound(g.word[i]);
          assert fx.found == WithGreens(found, greens, g, i) + {g.word[i]};
        }
      }
      assert fx.greens == LearnedGreens(greens, g.colors);
    }

    /** The second pass: yellow letters. */
    method LearnYellows(g: GuessRow) returns (gain: nat)
      requires |g.word| == |g.colors| && Letters(g.word)
      modifies this`fx
      ensures fx == old(fx).(found := WithYellows(old(fx.found), g, |g.word|))
      ensures gain == YELLOW_ENERGY * NewYellowCount(old(fx.found), g, |g.word|)
    {
      gain := 0;
      ghost var found := fx.found;
      for i := 0 to |g.colors|
        invariant fx == old(fx).(found := WithYellows(found, g, i))
        invariant gain == YELLOW_ENERGY * NewYellowCount(found, g, i)
      {
        if g.colors[i] == Yellow {
          var isNew := MarkFound(g.word[i]);
          if isNew {
            gain := gain + YELLOW_ENERGY;
          }
          assert fx.found == WithYellows(found, g, i) + {g.word[i]};
        }
      }
    }

    /** Records the letters a guess found and, if pay is set, pays for the new ones. */
    method Learn(g: GuessRow, pay: bool) returns (newGreen: bool)
      requires RowOk(g, word) && Ledger()
      modifies this`fx, this`account
      ensures fx == old(fx).(
                greens := LearnedGreens(old(fx.greens), g.colors),
                found := LearnedFound(old(fx.greens), old(fx.found), g),
                energy := old(fx.energy) + if pay then Gain(old(fx.greens), old(fx.found), g) else 0)
      ensures newGreen <==> NewGreenCount(old(fx.greens), g.colors, |g.word|) > 0
      ensures account == if pay then Credited(old(account), Gain(old(fx.greens), old(fx.found), g)) else old(account)
      ensures Ledger()
    {
      RowLengths(g, word);
      LedgerShape();
      hide RowOk, AccountOk, LearnedGreens, WithGreens, WithYellows, NewGreenCount, NewYellowCount;
      AccountCredits(account, word, fx.greens, fx.found, g);
      var gain, more;
      newGreen, gain := LearnGreens(g);
      more := LearnYellows(g);
      if pay {
        fx := fx.(energy := fx.energy + gain + more);
        account := Credited(account, gain + more);
      }
    }

    /** Forgets what was found and learns it again from the guesses, without paying. */
    method Relearn()
      requires RowsOk(word, guesses) && |fx.greens| == |word|
      modifies this`fx, this`best, this`account
      ensures fx == old(fx).(greens := fx.greens, found := fx.found)
      ensures KnowledgeOk(word, guesses, fx.greens, fx.found, best)
      ensures ExactlyShown(guesses, fx.greens, fx.found, best)
      ensures Ledger() && account == Opened()
    {
      hide RowOk, KnowledgeOk, ExactlyShown, LearnedGreens, LearnedFound, Gain, AccountOk;
      fx := fx.(greens := NoGreens(|fx.greens|), found := {});
      best := 0.0;
      account := Opened();
      NothingKnown(word);
      AccountOpens(word, fx.greens, fx.found);
      assert guesses[..0] == [];
      for r := 0 to |guesses|
        invariant fx == old(fx).(greens := fx.greens, found := fx.found)
        invariant KnowledgeOk(word, guesses[..r], fx.greens, fx.found, best)
        invariant ExactlyShown(guesses[..r], fx.greens, fx.found, best)
        invariant Ledger() && account == Opened()
      {
        var g := guesses[r];
        RelearnStep(word, guesses[..r], fx.greens, fx.found, best, g);
        var _ := Learn(g, false);
        var c := Elo.ComputeCloseness(g.colors);
        best := if best < c then c else best;
        assert guesses[..r + 1] == guesses[..r] + [g];
      }
      assert guesses[..|guesses|] == guesses;
    }

    /** The word becomes w: every guess is scored again and what was found relearned. */
    method Rescore(w: Word)
      requires WordOk(word, |w|) && WordOk(w, |w|) && |fx.greens| == |w|
      requires WordsOk(guesses, |w|)
      modifies this`word, this`guesses, this`fx, this`best, this`account
      ensures word == w && guesses == RescoredRows(old(guesses), w)
      ensures fx == old(fx).(greens := fx.greens, found := fx.found)
      ensures RowsOk(word, guesses) && KnowledgeOk(word, guesses, fx.greens, fx.found, best)
      ensures ExactlyShown(guesses, fx.greens, fx.found, best)
      ensures Ledger() && account == Opened()
    {
      hide Fair, Colors, RowsOk, KnowledgeOk, ExactlyShown, AccountOk;
      word := w;
      for i := 0 to |guesses|
        invariant |guesses| == |old(guesses)|
        invariant word == w && fx == old(fx)
        invariant forall r | 0 <= r < |guesses| ::
          guesses[r] == if r < i then TrueRow(old(guesses)[r].word, Colors(old(guesses)[r].word, w)) else old(guesses)[r]
      {
        var g := guesses[i];
        var scored := ScoreAny(g.word, w);
        UpperOfLetters(g.word);
        FairIsColors(g.word, w, scored.colors);
        guesses := guesses[i := TrueRow(g.word, scored.colors)];
      }
      assert guesses == RescoredRows(old(guesses), w);
      RescoredOk(old(guesses), w);
      Relearn();
    }

    /** Two keys swap, on top of any scramble. */
    method SwapKeys()
      requires KeysOk(fx.keymap, fx.scrambledGuesses)
      modifies this`fx
      ensures fx == old(fx).(keymap := fx.keymap, scrambledGuesses := SCRAMBLE_GUESSES)
      ensures KeysTurned(old(fx.keymap), fx.keymap)
      ensures KeysOk(fx.keymap, fx.scrambledGuesses)
    {
      AlphabetPermutation();
      var keys := if fx.keymap.None? then Alphabet() else fx.keymap.value;
      var i: nat :| i < 26;
      var d: nat :| d < 25;
      var j := (i + 1 + d) % 26;
      assert j == if i + 1 + d < 26 then i + 1 + d else i + d - 25;
      SwapKeepsPermutation(keys, i, j);
      assert KeysSwapped(keys, Swapped(keys, i, j));
      fx := fx.(keymap := Some(Swapped(keys, i, j)), scrambledGuesses := SCRAMBLE_GUESSES);
    }

    /** Every letter somewhere else on the keyboard: rng.Perm fills in a permutation. */
    method Scramble()
      modifies this`fx
      ensures fx == old(fx).(keymap := fx.keymap, scrambledGuesses := SCRAMBLE_GUESSES)
      ensures KeysOk(fx.keymap, fx.scrambledGuesses)
    {
      var keys := Alphabet();
      AlphabetPermutation();
      for i: nat := 0 to 26
        invariant Permutation(keys) && fx == old(fx)
      {
        var j: nat :| j <= i;
        SwapKeepsPermutation(keys, i, j);
        keys := Swapped(keys, i, j);
      }
      fx := fx.(keymap := Some(keys), scrambledGuesses := SCRAMBLE_GUESSES);
    }
  }

  lemma AlphabetPermutation()
    ensures Permutation(Alphabet())
  {
  }

  lemma RelearnStep(word: Word, guesses: seq<GuessRow>, greens: seq<bool>, found: set<char>, best: real, g: GuessRow)
    requires RowOk(g, word) && KnowledgeOk(word, guesses, greens, found, best) && ExactlyShown(guesses, greens, found, best)
    ensures var c := Elo.Closeness(g.colors);
            var b := if best < c then c else best;
            && KnowledgeOk(word, guesses + [g], LearnedGreens(greens, g.colors), LearnedFound(greens, found, g), b)
            && ExactlyShown(guesses + [g], LearnedGreens(greens, g.colors), LearnedFound(greens, found, g), b)
  {
    LearnKeepsKnowledge(word, guesses, greens, found, best, g);
    ExactStep(word, guesses, greens, found, best, g);
  }

  /** Learning one more guess keeps the closed form. */
  lemma ExactStep(word: Word, guesses: seq<GuessRow>, greens: seq<bool>, found: set<char>, best: real, g: GuessRow)
    requires RowOk(g, word) && Truthful(word, greens, found) && ExactlyShown(guesses, greens, found, best)
    ensures var c := Elo.Closeness(g.colors);
            ExactlyShown(guesses + [g], LearnedGreens(greens, g.colors), LearnedFound(greens, found, g),
                         if best < c then c else best)
  {
    var all, greens', found' := guesses + [g], LearnedGreens(greens, g.colors), LearnedFound(greens, found, g);
    assert all[..|all| - 1] == guesses;
    forall i | 0 <= i < |greens'| ensures greens'[i] <==> ShownGreen(all, i) {
      if ShownGreen(guesses, i) {
        var r :| 0 <= r < |guesses| && i < |guesses[r].colors| && guesses[r].colors[i] == Green;
        assert all[r] == guesses[r];
      }
      if g.colors[i] == Green {
        assert all[|guesses|] == g;
      }
      if ShownGreen(all, i) && g.colors[i] != Green {
        var r :| 0 <= r < |all| && i < |all[r].colors| && all[r].colors[i] == Green;
        assert guesses[r] == all[r];
      }
    }
    forall l: char ensures l in found' <==> ShownLetter(all, l) {
      ExactStepLetter(word, guesses, greens, found, g, l);
    }
  }

  lemma ExactStepLetter(word: Word, guesses: seq<GuessRow>, greens: seq<bool>, found: set<char>, g: GuessRow, l: char)
    requires RowOk(g, word) && Truthful(word, greens, found)
    requires l in found <==> ShownLetter(guesses, l)
    ensures l in LearnedFound(greens, found, g) <==> ShownLetter(guesses + [g], l)
  {
    var all := guesses + [g];
    LearnedMember(greens, found, g, l);
    if ShownLetter(guesses, l) {
      var r :| 0 <= r < |guesses| && ShownIn(guesses[r], l);
      assert ShownIn(all[r], l);
    } else if l in LearnedFound(greens, found, g) {
      var i: nat :| i < |g.word| && (g.colors[i] == Green || g.colors[i] == Yellow) && g.word[i] == l;
      assert ShownIn(all[|guesses|], l);
    }
  }
}
