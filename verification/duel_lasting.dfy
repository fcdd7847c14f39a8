/** How long tricks and curses last, over histories of turns: each theorem is about what a
player is told or may do at a later turn, and says which turns in between would end it. */
module DuelLasting {
  import opened Wordle
  import opened Boards
  import opened DuelSides
  import opened DuelRules
  import opened DuelTurns
  import opened DuelFrames
  import DuelHistory

  /** Turns one after the other, by the rules, in the order of time. */
  ghost predicate Runs(log: seq<Turn>, p: Puzzle) {
    && (forall k | 0 <= k < |log| :: Lawful(log[k], p))
    && (forall k | 0 <= k < |log| - 1 :: log[k].after == log[k + 1].before)
    && (forall j, k | 0 <= j < k < |log| :: log[j].now <= log[k].now)
  }

  /** Every history is such a run, if its commands came in the order of time. */
  lemma {:induction false} HistoryRuns(log: seq<Turn>, p: Puzzle, from: Table, to: Table)
    requires DuelHistory.History(log, p, from, to)
    requires forall j, k | 0 <= j < k < |log| :: log[j].now <= log[k].now
    ensures Runs(log, p)
  {
    forall k | 0 <= k < |log| ensures Lawful(log[k], p) {
      assert DuelHistory.TurnOk(log[k], p);
    }
    hide Lawful, DuelHistory.TurnOk;
    Linked(log, from, to);
  }

  lemma {:induction false} Linked(log: seq<Turn>, from: Table, to: Table)
    requires DuelHistory.Chained(log, from, to)
    ensures forall k | 0 <= k < |log| - 1 :: log[k].after == log[k + 1].before
    ensures log != [] ==> log[0].before == from && log[|log| - 1].after == to
    decreases |log|
  {
    if log != [] {
      var init, last := log[..|log| - 1], log[|log| - 1];
      Linked(init, from, last.before);
      forall k | 0 <= k < |log| - 1 ensures log[k].after == log[k + 1].before {
        if k < |init| - 1 {
          assert init[k].after == init[k + 1].before;
        } else {
          assert log[k] == init[|init| - 1];
        }
      }
    }
  }

  lemma NextSide(log: seq<Turn>, p: Puzzle, k: nat, s: Seat)
    requires Runs(log, p) && k + 1 < |log|
    ensures log[k + 1].Before(s) == log[k].After(s)
  {
    hide Lawful;
  }

  /** What holds of s after turn i, and is kept by every turn in between, holds before turn j. */
  lemma {:induction false} Lasts(log: seq<Turn>, p: Puzzle, s: Seat, i: nat, j: nat, holds: Side -> bool)
    requires Runs(log, p) && i < j < |log| && holds(log[i].After(s))
    requires forall k | i < k < j :: holds(log[k].Before(s)) ==> holds(log[k].After(s))
    ensures holds(log[j].Before(s))
    decreases j
  {
    hide Runs;
    NextSide(log, p, j - 1, s);
    if i < j - 1 {
      Lasts(log, p, s, i, j - 1, holds);
    }
  }

  lemma LawfulAt(log: seq<Turn>, p: Puzzle, k: nat)
    requires Runs(log, p) && k < |log|
    ensures Lawful(log[k], p)
  {
    hide Lawful;
  }

  lemma FrameAt(log: seq<Turn>, p: Puzzle, k: nat, s: Seat)
    requires Runs(log, p) && k < |log| && !FatedTo(log[k], CleanSlate)
    ensures Frame(log[k], s)
  {
    hide Lawful, Frame;
    TurnFrame(log[k], p, s);
  }

  /** A cast that was used: allowed, paid for, and with its effect. */
  lemma CastUsed(t: Turn, p: Puzzle, s: Seat, id: Ability)
    requires Lawful(t, p) && Uses(t, s, id)
    ensures MayCast(t.Before(s), t.Before(Facing(s)), t.command.req, t.now)
    ensures AbilityAt(t.Before(s).kind, t.command.req.slot) == Some(id) && t.before.ending.None?
    ensures CastEffect(id, t.command.req, t.now, p.maxGuesses, Spent(t.Before(s), Cost(id)), t.Before(Facing(s)),
                       t.After(s), t.After(Facing(s)))
    ensures FatedTo(t, CleanSlate) ==> id == DivineIntervention
  {
    hide CastEffect, FateEffect, MayCast;
  }

  lemma GuessMade(t: Turn, p: Puzzle, s: Seat)
    requires Lawful(t, p) && PlayedBy(t, s)
    ensures t.before.ending.None? && GuessAnswer(t, t.Before(s), t.command.guess, t.reply.guess, p)
    ensures GuessPlayed(t, s, t.Before(s), t.Before(Facing(s)), Upper(t.command.guess), t.reply.guess)
  {
    hide GuessPlayed, GuessCounts;
  }

  // ----- Faked colors

  /** What a guess that isn't the word shows: to the guesser what Under Their Nose has pending,
      to the opponent what Feint has; otherwise the truth. */
  lemma FakesShown(t: Turn, p: Puzzle, s: Seat)
    requires Lawful(t, p) && PlayedBy(t, s) && Upper(t.command.guess) != t.Before(s).word && t.Before(s).word != []
    ensures var me, r := t.Before(s), t.reply.guess;
            && |t.command.guess| == |me.word|
            && r.shown == (if me.fx.feint.Some? then me.fx.feint.value else Colors(Upper(t.command.guess), me.word))
            && r.seen == (if me.fx.falseNext.Some? then me.fx.falseNext.value else Colors(Upper(t.command.guess), me.word))
  {
    GuessMade(t, p, s);
    SolvesExactly(Upper(t.command.guess), t.Before(s).word);
    hide Lawful, GuessAnswer, Colors, Solves, GuessEffect, DuelRules.Guessed, EndingOf;
  }

  lemma FeintSet(t: Turn, p: Puzzle, s: Seat)
    requires Lawful(t, p) && Uses(t, s, Feint)
    ensures t.After(s).fx.feint == Some(t.command.req.colors)
  {
    CastUsed(t, p, s, Feint);
    hide Lawful, MayCast;
  }

  /** s's guess at j that isn't the word shows the opponent exactly the colors s picked for
      Feint at i, if in between s played no guess, cast no other Feint, and no slate was wiped;
      and it shows s the truth unless Under Their Nose is pending. */
  lemma FeintFools(log: seq<Turn>, p: Puzzle, s: Seat, i: nat, j: nat)
    requires Runs(log, p) && i < j < |log| && Uses(log[i], s, Feint) && PlayedBy(log[j], s)
    requires forall k | i < k < j :: !PlayedBy(log[k], s) && !Uses(log[k], s, Feint) && !FatedTo(log[k], CleanSlate)
    requires Upper(log[j].command.guess) != log[j].Before(s).word && log[j].Before(s).word != []
    ensures log[j].reply.guess.shown == log[i].command.req.colors
    ensures |log[j].command.guess| == |log[j].Before(s).word|
    ensures log[j].Before(s).fx.falseNext.None? ==>
              log[j].reply.guess.seen == Colors(Upper(log[j].command.guess), log[j].Before(s).word)
  {
    hide Lawful, Frame, Runs;
    var colors := log[i].command.req.colors;
    LawfulAt(log, p, i);
    LawfulAt(log, p, j);
    FeintSet(log[i], p, s);
    forall k | i < k < j ensures log[k].Before(s).fx.feint == Some(colors) ==> log[k].After(s).fx.feint == Some(colors) {
      FrameAt(log, p, k, s);
      FeintKept(log[k], s);
    }
    Lasts(log, p, s, i, j, (x: Side) => x.fx.feint == Some(colors));
    FakesShown(log[j], p, s);
  }

  lemma FeintKept(t: Turn, s: Seat)
    requires Frame(t, s)
    ensures PlayedBy(t, s) || Uses(t, s, Feint) || t.After(s).fx.feint == t.Before(s).fx.feint
    ensures PlayedBy(t, s) || HitBy(t, s, UnderTheirNose) || Uses(t, s, Purify) || t.After(s).fx.falseNext == t.Before(s).fx.falseNext
  {
  }

  lemma NoseSet(t: Turn, p: Puzzle, s: Seat)
    requires Lawful(t, p) && HitBy(t, s, UnderTheirNose)
    ensures t.After(s).fx.falseNext == Some(t.command.req.colors)
  {
    CastUsed(t, p, Facing(s), UnderTheirNose);
    hide Lawful, MayCast;
  }

  /** The mirror: s's guess at j shows s exactly the colors the opponent picked for an Under
      Their Nose that hit at i, and the opponent the truth unless a Feint is pending. */
  lemma NoseFools(log: seq<Turn>, p: Puzzle, s: Seat, i: nat, j: nat)
    requires Runs(log, p) && i < j < |log| && HitBy(log[i], s, UnderTheirNose) && PlayedBy(log[j], s)
    requires forall k | i < k < j :: !PlayedBy(log[k], s) && !HitBy(log[k], s, UnderTheirNose) && !Uses(log[k], s, Purify)
                                     && !FatedTo(log[k], CleanSlate)
    requires Upper(log[j].command.guess) != log[j].Before(s).word && log[j].Before(s).word != []
    ensures log[j].reply.guess.seen == log[i].command.req.colors
    ensures |log[j].command.guess| == |log[j].Before(s).word|
    ensures log[j].Before(s).fx.feint.None? ==>
              log[j].reply.guess.shown == Colors(Upper(log[j].command.guess), log[j].Before(s).word)
  {
    hide Lawful, Frame, Runs;
    var colors := log[i].command.req.colors;
    LawfulAt(log, p, i);
    LawfulAt(log, p, j);
    NoseSet(log[i], p, s);
    forall k | i < k < j ensures log[k].Before(s).fx.falseNext == Some(colors) ==> log[k].After(s).fx.falseNext == Some(colors) {
      FrameAt(log, p, k, s);
      FeintKept(log[k], s);
    }
    Lasts(log, p, s, i, j, (x: Side) => x.fx.falseNext == Some(colors));
    FakesShown(log[j], p, s);
  }
}
