/** Elo ratings and how a ranked duel changes them (internal/ranked/elo.go).

Reals stand for floats. The power of ten inside `Expected` is a parameter `pow`
of which only `IsPower` is known. */
module Elo {
  import opened Wordle

  const START_ELO := 1000
  const K := 32.0
  const PROVISIONAL_K := 48.0
  const PROVISIONAL_GAMES := 10
  const MIN_MARGIN := 1.0
  const MAX_MARGIN := 1.75
  const FAST_SOLVE_SECONDS := 180.0

  datatype Rating = Rating(elo: int, peak: int, games: int, wins: int, losses: int, draws: int)

  function NewRating(): Rating {
    Rating(START_ELO, START_ELO, 0, 0, 0, 0)
  }

  predicate Sound(r: Rating) {
    && 0 <= r.elo <= r.peak
    && 0 <= r.wins && 0 <= r.losses && 0 <= r.draws
    && r.games == r.wins + r.losses + r.draws
  }

  function KFactor(r: Rating): real {
    if r.games < PROVISIONAL_GAMES then PROVISIONAL_K else K
  }

  /** x => 10^x, as far as it matters here. */
  ghost predicate IsPower(pow: real -> real) {
    && (forall x: real :: pow(x) > 0.0 && pow(x) * pow(-x) == 1.0)
    && (forall x: real, y: real :: x < y ==> pow(x) < pow(y))
    && pow(1.0) == 10.0
  }

  function Expected(pow: real -> real, a: int, b: int): real
    requires IsPower(pow)
  {
    var p := pow((b - a) as real / 400.0);
    1.0 / (1.0 + p)
  }

  lemma Reciprocal(p: real, q: real)
    requires p > 0.0 && q > 0.0 && p * q == 1.0
    ensures 1.0 / (1.0 + p) + 1.0 / (1.0 + q) == 1.0
    ensures 0.0 < 1.0 / (1.0 + p) < 1.0
  {
    assert (1.0 + q) * p == 1.0 + p;
    assert 1.0 / (1.0 + q) == p / (1.0 + p);
  }

  lemma ExpectedIsChance(pow: real -> real, a: int, b: int)
    requires IsPower(pow)
    ensures 0.0 < Expected(pow, a, b) < 1.0
    ensures Expected(pow, a, b) + Expected(pow, b, a) == 1.0
  {
    var x := (b - a) as real / 400.0;
    assert (a - b) as real / 400.0 == -x;
    assert pow(x) * pow(-x) == 1.0 && pow(-x) > 0.0;
    Reciprocal(pow(x), pow(-x));
  }

  lemma OneOver(p: real, q: real)
    requires 0.0 < p < q
    ensures 1.0 / q < 1.0 / p
  {
    assert 1.0 / p - 1.0 / q == (q - p) / (p * q) by {
      Quotients(p, q);
    }
    Positive(p, q);
    assert (q - p) / (p * q) > 0.0;
  }

  lemma Quotients(p: real, q: real)
    requires p > 0.0 && q > 0.0 && p * q > 0.0
    ensures 1.0 / p - 1.0 / q == (q - p) / (p * q)
  {
    assert 1.0 / p == q / (p * q) && 1.0 / q == p / (p * q);
  }

  lemma Positive(p: real, q: real)
    requires p > 0.0 && q > 0.0
    ensures p * q > 0.0
  {
  }

  /** The more elo, the better the chance; 400 more make it ten to one. */
  lemma ExpectedGrows(pow: real -> real, a: int, b: int, c: int)
    requires IsPower(pow)
    ensures a < b ==> Expected(pow, a, c) < Expected(pow, b, c)
    ensures Expected(pow, a, a) == 0.5
    ensures a == b + 400 ==> Expected(pow, b, a) == 1.0 / 11.0
  {
    if a < b {
      var x, y := (c - b) as real / 400.0, (c - a) as real / 400.0;
      assert x < y;
      OneOver(1.0 + pow(x), 1.0 + pow(y));
    }
    ExpectedIsChance(pow, a, a);
    if a == b + 400 {
      assert (a - b) as real / 400.0 == 1.0;
    }
  }

  // ----- Margins

  datatype Margin = Margin(winnerGuesses: int, winnerSeconds: real, loserGuesses: int,
                           loserOut: bool, loserBest: real, forfeit: bool)

  function Clamp(v: real, lo: real, hi: real): real {
    var u := if v < hi then v else hi;
    if lo < u then u else lo
  }

  function Multiplier(m: Margin): real {
    if m.forfeit then MAX_MARGIN else
    var guessEdge := if m.loserOut then 1.0
                     else Clamp((m.loserGuesses - m.winnerGuesses + 1) as real / 3.0, 0.0, 1.0);
    var speed := Clamp(1.0 - m.winnerSeconds / FAST_SOLVE_SECONDS, 0.0, 1.0);
    Clamp(MIN_MARGIN + 0.3 * guessEdge + 0.3 * (1.0 - Clamp(m.loserBest, 0.0, 1.0)) + 0.15 * speed,
          MIN_MARGIN, MAX_MARGIN)
  }

  /** n is as decisive a win as m in every respect. */
  predicate AsDecisive(n: Margin, m: Margin) {
    || n.forfeit
    || (&& !m.forfeit
        && n.loserGuesses - n.winnerGuesses >= m.loserGuesses - m.winnerGuesses
        && (m.loserOut ==> n.loserOut)
        && n.loserBest <= m.loserBest
        && n.winnerSeconds <= m.winnerSeconds)
  }

  lemma MultiplierRange(m: Margin)
    ensures MIN_MARGIN <= Multiplier(m) <= MAX_MARGIN
  {
  }

  lemma MultiplierMonotone(n: Margin, m: Margin)
    requires AsDecisive(n, m)
    ensures Multiplier(m) <= Multiplier(n)
  {
    if !n.forfeit {
      var dm, dn := m.loserGuesses - m.winnerGuesses + 1, n.loserGuesses - n.winnerGuesses + 1;
      assert dm as real / 3.0 <= dn as real / 3.0;
      assert m.winnerSeconds / FAST_SOLVE_SECONDS >= n.winnerSeconds / FAST_SOLVE_SECONDS;
    }
  }

  // ----- Closeness

  /** Greens count one, yellows a half. */
  function Points(colors: seq<Color>): real {
    if colors == [] then 0.0
    else
      var c := colors[|colors| - 1];
      Points(colors[..|colors| - 1]) + if c == Green then 1.0 else if c == Yellow then 0.5 else 0.0
  }

  function Closeness(colors: seq<Color>): real {
    if |colors| == 0 then 0.0 else Points(colors) / |colors| as real
  }

  lemma {:induction false} PointsRange(colors: seq<Color>)
    ensures 0.0 <= Points(colors) <= |colors| as real
    ensures Points(colors) == |colors| as real <==> forall i | 0 <= i < |colors| :: colors[i] == Green
  {
    if colors != [] {
      var n := |colors| - 1;
      PointsRange(colors[..n]);
      assert forall i | 0 <= i < n :: colors[..n][i] == colors[i];
    }
  }

  /** Closeness is between 0 and 1, and 1 only for a solve. */
  lemma ClosenessRange(colors: seq<Color>)
    ensures 0.0 <= Closeness(colors) <= 1.0
    ensures Closeness(colors) == 1.0 <==> Solves(colors)
  {
    PointsRange(colors);
    if colors != [] {
      var n := |colors| as real;
      Ratio(Points(colors), n);
    }
  }

  lemma Ratio(p: real, n: real)
    requires 0.0 <= p <= n && n > 0.0
    ensures 0.0 <= p / n <= 1.0
    ensures p / n == 1.0 <==> p == n
  {
    assert n / n == 1.0;
    assert (n - p) / n >= 0.0 && (n - p) / n == n / n - p / n;
    if p / n == 1.0 {
      assert p == p / n * n;
    }
  }

  method ComputeCloseness(colors: seq<Color>) returns (r: real)
    ensures r == Closeness(colors)
    ensures 0.0 <= r <= 1.0
  {
    ClosenessRange(colors);
    if |colors| == 0 {
      return 0.0;
    }
    var score := 0.0;
    for i := 0 to |colors|
      invariant score == Points(colors[..i])
    {
      assert colors[..i + 1][..i] == colors[..i];
      match colors[i]
      case Green => score := score + 1.0;
      case Yellow => score := score + 0.5;
      case _ =>
    }
    assert colors[..|colors|] == colors;
    return score / |colors| as real;
  }

  // ----- Elo changes

  /** math.Round: halves away from zero. */
  function Round(x: real): int {
    if x >= 0.0 then (x + 0.5).Floor else -((-x + 0.5).Floor)
  }

  lemma RoundMonotone(x: real, y: real)
    requires x <= y
    ensures Round(x) <= Round(y)
  {
  }

  /** The change d, except that a decided 0 becomes 1 in the direction of the surprise. */
  function AtLeastOne(d: int, surprise: real, decisive: bool): int {
    if decisive && d == 0 then
      if surprise > 0.0 then 1 else -1
    else d
  }

  function RawChange(k: real, mult: real, surprise: real): real {
    k * mult * surprise
  }

  function Change(r: Rating, surprise: real, mult: real, decisive: bool): int {
    AtLeastOne(Round(RawChange(KFactor(r), mult, surprise)), surprise, decisive)
  }

  datatype Applied = Applied(rating: Rating, delta: int)

  function Apply(r: Rating, change: int, score: real): Applied {
    var delta := if r.elo + change < 0 then -r.elo else change;
    var elo := r.elo + delta;
    var counted := r.(elo := elo, peak := if elo > r.peak then elo else r.peak, games := r.games + 1);
    Applied(if score == 1.0 then counted.(wins := r.wins + 1)
            else if score == 0.0 then counted.(losses := r.losses + 1)
            else counted.(draws := r.draws + 1),
            delta)
  }

  datatype Outcome = AWins | BWins | Draw

  datatype Result = Result(a: Rating, b: Rating, deltaA: int, deltaB: int, expectedA: real, multiplier: real)

  function ScoreA(outcome: Outcome): real {
    match outcome
    case AWins => 1.0
    case BWins => 0.0
    case Draw => 0.5
  }

  function Settle(pow: real -> real, a: Rating, b: Rating, outcome: Outcome, m: Margin): Result
    requires IsPower(pow)
  {
    var e := Expected(pow, a.elo, b.elo);
    var s := ScoreA(outcome);
    var mult := if outcome == Draw then 1.0 else Multiplier(m);
    var appliedA := Apply(a, Change(a, s - e, mult, outcome != Draw), s);
    var appliedB := Apply(b, Change(b, (1.0 - s) - (1.0 - e), mult, outcome != Draw), 1.0 - s);
    Result(appliedA.rating, appliedB.rating, appliedA.delta, appliedB.delta, e, mult)
  }

  datatype Stake = Stake(winMin: int, winMax: int, loseMin: int, loseMax: int)

  function Floored(me: Rating, change: int): int {
    if change < -me.elo then -me.elo else change
  }

  function StakesAt(me: Rating, e: real): Stake {
    Stake(Change(me, 1.0 - e, MIN_MARGIN, true), Change(me, 1.0 - e, MAX_MARGIN, true),
          Floored(me, Change(me, -e, MIN_MARGIN, true)), Floored(me, Change(me, -e, MAX_MARGIN, true)))
  }

  function Stakes(pow: real -> real, me: Rating, them: Rating): Stake
    requires IsPower(pow)
  {
    StakesAt(me, Expected(pow, me.elo, them.elo))
  }

  lemma Scaled(x: real, y: real, s: real)
    requires x <= y
    ensures s >= 0.0 ==> x * s <= y * s
    ensures s <= 0.0 ==> y * s <= x * s
  {
    assert (y - x) * s == y * s - x * s;
  }

  lemma RawMonotone(k: real, m: real, n: real, s: real)
    requires 0.0 < k && 0.0 < m <= n
    ensures s >= 0.0 ==> 0.0 <= RawChange(k, m, s) <= RawChange(k, n, s)
    ensures s <= 0.0 ==> RawChange(k, n, s) <= RawChange(k, m, s) <= 0.0
  {
    Scaled(m, n, k);
    var km, kn := k * m, k * n;
    assert 0.0 <= km <= kn;
    Scaled(0.0, km, s);
    Scaled(km, kn, s);
  }

  /** The change grows with the margin, in the direction of the surprise. */
  lemma ChangeMonotone(r: Rating, surprise: real, m: real, n: real)
    requires 0.0 < m <= n
    ensures surprise > 0.0 ==> 1 <= Change(r, surprise, m, true) <= Change(r, surprise, n, true)
    ensures surprise < 0.0 ==> Change(r, surprise, n, true) <= Change(r, surprise, m, true) <= -1
  {
    var k := KFactor(r);
    assert k > 0.0;
    hide RawChange, KFactor;
    RawMonotone(k, m, n, surprise);
    if surprise >= 0.0 {
      RoundMonotone(RawChange(k, m, surprise), RawChange(k, n, surprise));
    } else {
      RoundMonotone(RawChange(k, n, surprise), RawChange(k, m, surprise));
    }
  }

  lemma NonNegative(a: real, b: real)
    requires a >= 0.0 && b >= 0.0
    ensures a * b >= 0.0
  {
  }

  lemma BoundedProduct(k: real, s: real)
    requires 0.0 <= k <= 84.0 && -1.0 <= s <= 1.0
    ensures -84.0 <= k * s <= 84.0
  {
    NonNegative(k, 1.0 - s);
    NonNegative(k, 1.0 + s);
    assert k * (1.0 - s) == k - k * s;
    assert k * (1.0 + s) == k + k * s;
  }

  lemma ChangeBounded(r: Rating, surprise: real, mult: real, decisive: bool)
    requires -1.0 <= surprise <= 1.0 && MIN_MARGIN <= mult <= MAX_MARGIN
    ensures -84 <= Change(r, surprise, mult, decisive) <= 84
  {
    var km := KFactor(r) * mult;
    assert 0.0 < km <= 84.0;
    BoundedProduct(km, surprise);
    RoundMonotone(km * surprise, 84.0);
    RoundMonotone(-84.0, km * surprise);
  }

  lemma NegatedProduct(k: real, s: real)
    ensures k * -s == -(k * s)
  {
  }

  lemma RoundOdd(x: real)
    ensures Round(-x) == -Round(x)
  {
  }

  lemma OppositeChange(k: real, surprise: real, mult: real, decisive: bool)
    requires decisive ==> surprise != 0.0
    ensures AtLeastOne(Round(RawChange(k, mult, surprise)), surprise, decisive)
         == -AtLeastOne(Round(RawChange(k, mult, -surprise)), -surprise, decisive)
  {
    NegatedProduct(k * mult, surprise);
    RoundOdd(k * mult * surprise);
  }

  /** Between players with the same K, one side's raw change is the other's, negated. */
  lemma ChangeOpposite(a: Rating, b: Rating, surprise: real, mult: real, decisive: bool)
    requires KFactor(a) == KFactor(b)
    requires decisive ==> surprise != 0.0
    ensures Change(a, surprise, mult, decisive) == -Change(b, -surprise, mult, decisive)
  {
    hide Round, AtLeastOne, KFactor, RawChange;
    OppositeChange(KFactor(a), surprise, mult, decisive);
  }

  /** Settling keeps records sound, whatever the margin. */
  lemma SettleSound(pow: real -> real, a: Rating, b: Rating, outcome: Outcome, m: Margin)
    requires IsPower(pow) && Sound(a) && Sound(b)
    ensures var r := Settle(pow, a, b, outcome, m);
            && Sound(r.a) && Sound(r.b)
            && r.a.elo == a.elo + r.deltaA && r.b.elo == b.elo + r.deltaB
            && r.a.games == a.games + 1 && r.b.games == b.games + 1
            && -84 <= r.deltaA <= 84 && -84 <= r.deltaB <= 84
  {
    ExpectedIsChance(pow, a.elo, b.elo);
    MultiplierRange(m);
    var r := Settle(pow, a, b, outcome, m);
    var s := ScoreA(outcome);
    ChangeBounded(a, s - r.expectedA, r.multiplier, outcome != Draw);
    ChangeBounded(b, (1.0 - s) - (1.0 - r.expectedA), r.multiplier, outcome != Draw);
  }

  /** Equal K: elo is conserved, except that a floored loser loses less than the
      other side wins. */
  lemma SettleZeroSum(pow: real -> real, a: Rating, b: Rating, outcome: Outcome, m: Margin)
    requires IsPower(pow) && Sound(a) && Sound(b) && KFactor(a) == KFactor(b)
    ensures var r := Settle(pow, a, b, outcome, m);
            var s := ScoreA(outcome);
            var rawA := Change(a, s - r.expectedA, r.multiplier, outcome != Draw);
            var floored := a.elo + rawA < 0 || b.elo - rawA < 0;
            && (floored ==> r.deltaA + r.deltaB > 0)
            && (!floored ==> r.deltaA + r.deltaB == 0)
  {
    ExpectedIsChance(pow, a.elo, b.elo);
    var r := Settle(pow, a, b, outcome, m);
    var s := ScoreA(outcome);
    ChangeOpposite(a, b, s - r.expectedA, r.multiplier, outcome != Draw);
    assert (1.0 - s) - (1.0 - r.expectedA) == -(s - r.expectedA);
  }

  /** A decisive duel moves the winner up, and the loser down unless already at 0. */
  lemma SettleMoves(pow: real -> real, a: Rating, b: Rating, outcome: Outcome, m: Margin)
    requires IsPower(pow) && Sound(a) && Sound(b) && outcome != Draw
    ensures var r := Settle(pow, a, b, outcome, m);
            var (win, lose, loser) := if outcome == AWins then (r.deltaA, r.deltaB, b) else (r.deltaB, r.deltaA, a);
            win >= 1 && (loser.elo > 0 ==> lose <= -1) && (loser.elo == 0 ==> lose == 0)
  {
    ExpectedIsChance(pow, a.elo, b.elo);
    MultiplierRange(m);
    var r := Settle(pow, a, b, outcome, m);
    var s := ScoreA(outcome);
    ChangeMonotone(a, s - r.expectedA, r.multiplier, r.multiplier);
    ChangeMonotone(b, (1.0 - s) - (1.0 - r.expectedA), r.multiplier, r.multiplier);
  }

  /** What the stakes promise the challenged player. */
  predicate WithinStakes(stake: Stake, won: bool, delta: int) {
    if won then stake.winMin <= delta <= stake.winMax else stake.loseMax <= delta <= stake.loseMin
  }

  /** One side's settlement lies inside its stakes. */
  lemma BracketHolds(me: Rating, e: real, won: bool, mult: real)
    requires Sound(me) && 0.0 < e < 1.0 && MIN_MARGIN <= mult <= MAX_MARGIN
    ensures var score := if won then 1.0 else 0.0;
            WithinStakes(StakesAt(me, e), won, Apply(me, Change(me, score - e, mult, true), score).delta)
  {
    hide Change;
    if won {
      ChangeMonotone(me, 1.0 - e, MIN_MARGIN, mult);
      ChangeMonotone(me, 1.0 - e, mult, MAX_MARGIN);
    } else {
      assert 0.0 - e == -e;
      ChangeMonotone(me, -e, MIN_MARGIN, mult);
      ChangeMonotone(me, -e, mult, MAX_MARGIN);
    }
  }

  /** Whatever the margin, the stakes either player would be shown hold. */
  lemma SettleWithinStakes(pow: real -> real, a: Rating, b: Rating, outcome: Outcome, m: Margin)
    requires IsPower(pow) && Sound(a) && Sound(b) && outcome != Draw
    ensures var r := Settle(pow, a, b, outcome, m);
            && WithinStakes(Stakes(pow, a, b), outcome == AWins, r.deltaA)
            && WithinStakes(Stakes(pow, b, a), outcome == BWins, r.deltaB)
  {
    hide Change, Floored, Multiplier, Expected, Apply;
    ExpectedIsChance(pow, a.elo, b.elo);
    ExpectedIsChance(pow, b.elo, a.elo);
    MultiplierRange(m);
    var e, f, s := Expected(pow, a.elo, b.elo), Expected(pow, b.elo, a.elo), ScoreA(outcome);
    BracketHolds(a, e, outcome == AWins, Multiplier(m));
    BracketHolds(b, f, outcome == BWins, Multiplier(m));
    assert (1.0 - s) - (1.0 - e) == (1.0 - s) - f;
  }

  /** A win as close as can be: late, with the loser still in it, ahead on nothing, and a
      guess away. */
  predicate Closest(m: Margin) {
    !m.forfeit && !m.loserOut && m.loserGuesses < m.winnerGuesses && m.winnerSeconds >= 180.0 && m.loserBest >= 1.0
  }

  /** A win as clear as can be: at once, with the loser out and nothing right. */
  predicate Clearest(m: Margin) {
    m.forfeit || (m.loserOut && m.winnerSeconds <= 0.0 && m.loserBest <= 0.0)
  }

  lemma MultiplierEnds(m: Margin)
    ensures Closest(m) ==> Multiplier(m) == 1.0
    ensures Clearest(m) ==> Multiplier(m) == 1.75
  {
    if Closest(m) {
      assert (m.loserGuesses - m.winnerGuesses + 1) as real / 3.0 <= 0.0;
      assert m.winnerSeconds / 180.0 >= 1.0;
    } else if Clearest(m) && !m.forfeit {
      assert m.winnerSeconds / 180.0 <= 0.0;
    }
  }

  /** The end of the stakes that the closest, or the clearest, win comes to. */
  predicate AtEnd(stake: Stake, won: bool, delta: int, clear: bool) {
    delta == if won then (if clear then stake.winMax else stake.winMin)
             else (if clear then stake.loseMax else stake.loseMin)
  }

  lemma EndAttained(me: Rating, e: real, won: bool, mult: real, clear: bool)
    requires Sound(me) && 0.0 < e < 1.0 && mult == if clear then MAX_MARGIN else MIN_MARGIN
    ensures var score := if won then 1.0 else 0.0;
            AtEnd(StakesAt(me, e), won, Apply(me, Change(me, score - e, mult, true), score).delta, clear)
  {
    hide Change;
    if won {
      ChangeMonotone(me, 1.0 - e, mult, mult);
    } else {
      assert 0.0 - e == -e;
    }
  }

  /** Neither end of the stakes is out of reach: the closest win comes to the near ends, the
      clearest to the far ones, for both players. */
  lemma StakesAttained(pow: real -> real, a: Rating, b: Rating, outcome: Outcome, m: Margin, clear: bool)
    requires IsPower(pow) && Sound(a) && Sound(b) && outcome != Draw
    requires if clear then Clearest(m) else Closest(m)
    ensures var r := Settle(pow, a, b, outcome, m);
            && AtEnd(Stakes(pow, a, b), outcome == AWins, r.deltaA, clear)
            && AtEnd(Stakes(pow, b, a), outcome == BWins, r.deltaB, clear)
  {
    hide Change, Floored, Multiplier, Expected, Apply;
    ExpectedIsChance(pow, a.elo, b.elo);
    ExpectedIsChance(pow, b.elo, a.elo);
    MultiplierEnds(m);
    var e, f, s := Expected(pow, a.elo, b.elo), Expected(pow, b.elo, a.elo), ScoreA(outcome);
    EndAttained(a, e, outcome == AWins, Multiplier(m), clear);
    EndAttained(b, f, outcome == BWins, Multiplier(m), clear);
    assert (1.0 - s) - (1.0 - e) == (1.0 - s) - f;
  }

  /** What is counted: one game for each, in the right column, and the best elo so far. */
  lemma SettleCounts(pow: real -> real, a: Rating, b: Rating, outcome: Outcome, m: Margin)
    requires IsPower(pow)
    ensures var r := Settle(pow, a, b, outcome, m);
            && r.a.wins - a.wins == r.b.losses - b.losses == (if outcome == AWins then 1 else 0)
            && r.b.wins - b.wins == r.a.losses - a.losses == (if outcome == BWins then 1 else 0)
            && r.a.draws - a.draws == r.b.draws - b.draws == (if outcome == Draw then 1 else 0)
            && (r.a.peak == a.peak >= r.a.elo || r.a.peak == r.a.elo > a.peak)
            && (r.b.peak == b.peak >= r.b.elo || r.b.peak == r.b.elo > b.peak)
  {
    hide Change, Multiplier, Expected;
  }

  /** In the first ten games the same result moves a player further: half again as far, but
      for rounding. */
  lemma ProvisionalMovesMore(young: Rating, veteran: Rating, surprise: real, mult: real)
    requires young.games < 10 <= veteran.games && 1.0 <= mult <= 1.75 && -1.0 <= surprise <= 1.0
    ensures surprise > 0.0 ==> Change(young, surprise, mult, true) >= Change(veteran, surprise, mult, true)
    ensures surprise < 0.0 ==> Change(young, surprise, mult, true) <= Change(veteran, surprise, mult, true)
    ensures 2.0 * RawChange(KFactor(young), mult, surprise) == 3.0 * RawChange(KFactor(veteran), mult, surprise)
    ensures RawChange(KFactor(veteran), 1.0, 1.0) == 32.0
  {
    var x := mult * surprise;
    ThreeHalves(mult, surprise);
    if surprise > 0.0 {
      Positive(mult, surprise);
      RoundMonotone(RawChange(32.0, mult, surprise), RawChange(48.0, mult, surprise));
    } else if surprise < 0.0 {
      Positive(mult, -surprise);
      NegatedProduct(mult, surprise);
      RoundMonotone(RawChange(48.0, mult, surprise), RawChange(32.0, mult, surprise));
    }
  }

  lemma ThreeHalves(mult: real, surprise: real)
    ensures RawChange(48.0, mult, surprise) == 48.0 * (mult * surprise)
    ensures RawChange(32.0, mult, surprise) == 32.0 * (mult * surprise)
  {
  }

  /** What each part of a margin is worth: a loser out, or two guesses behind, three tenths;
      level on guesses, one; a loser with nothing right, three; a solve at once, one and a half. */
  lemma MultiplierParts(m: Margin)
    requires !m.forfeit
    ensures (m.loserOut || m.loserGuesses >= m.winnerGuesses + 2) && m.winnerSeconds >= 180.0 && m.loserBest >= 1.0 ==> Multiplier(m) == 1.3
    ensures !m.loserOut && m.loserGuesses == m.winnerGuesses && m.winnerSeconds >= 180.0 && m.loserBest >= 1.0 ==> Multiplier(m) == 1.1
    ensures !m.loserOut && m.loserGuesses < m.winnerGuesses && m.winnerSeconds >= 180.0 && m.loserBest == 0.0 ==> Multiplier(m) == 1.3
    ensures !m.loserOut && m.loserGuesses < m.winnerGuesses && m.winnerSeconds == 0.0 && m.loserBest >= 1.0 ==> Multiplier(m) == 1.15
    ensures !m.loserOut && m.loserGuesses < m.winnerGuesses && m.winnerSeconds == 90.0 && m.loserBest == 0.5 ==> Multiplier(m) == 1.225
  {
    var d := m.loserGuesses - m.winnerGuesses + 1;
    assert d <= 0 ==> d as real / 3.0 <= 0.0;
    assert d >= 3 ==> d as real / 3.0 >= 1.0;
    assert m.winnerSeconds >= 180.0 ==> m.winnerSeconds / 180.0 >= 1.0;
  }

  /** Closeness in numbers: of n letters, a green counts one nth and a yellow half of that. */
  lemma {:induction false} PointsInNumbers(colors: seq<Color>)
    ensures 2.0 * Points(colors) == (2 * multiset(colors)[Green] + multiset(colors)[Yellow]) as real
  {
    if colors != [] {
      var init, last := colors[..|colors| - 1], colors[|colors| - 1];
      PointsInNumbers(init);
      assert colors == init + [last];
    }
  }

  /** Rounding is to the nearest, halves away from zero. */
  lemma RoundNearest(x: real)
    ensures x >= 0.0 ==> x - 0.5 < Round(x) as real <= x + 0.5
    ensures x <= 0.0 ==> x - 0.5 <= Round(x) as real < x + 0.5
  {
  }
}
