/** The daily Wordle, one game a day per account, kept by the server across reconnects
(internal/puzzles/wordle/game.go:71-155). Each method is one critical section of the
mutex. A day is a number; days don't go back. */
module Dailies {
  import opened Wordle
  import opened Boards

  const GUESSES_ALLOWED := 5

  type Day = int

  class Session {
    const date: Day
    const start: Time
    var guesses: seq<Word>
    var colors: seq<seq<Color>>
    var done: bool

    constructor (date: Day, start: Time)
      ensures this.date == date && this.start == start && guesses == [] && colors == [] && !done
    {
      this.date, this.start := date, start;
      guesses, colors, done := [], [], false;
    }
  }

  datatype Resume = Resume(guesses: seq<Word>, colors: seq<seq<Color>>, elapsed: Time)
  datatype Status = InGame | Win | Lose
  datatype Reply = Reply(valid: bool, status: Status, colors: seq<Color>)
  datatype Finished = Finished(date: Day, win: bool, guesses: nat, elapsed: Time)

  /** A game as it should look: every guess honestly scored, over exactly with the word or
      the last guess, and nothing after that. */
  predicate GameOk(word: Word, guesses: seq<Word>, colors: seq<seq<Color>>, done: bool) {
    && |colors| == |guesses| <= GUESSES_ALLOWED
    && (forall i | 0 <= i < |guesses| :: |guesses[i]| == |word| && colors[i] == Colors(guesses[i], word))
    && (forall i | 0 <= i < |guesses| - 1 :: guesses[i] != word)
    && (done <==> |guesses| == GUESSES_ALLOWED || (guesses != [] && guesses[|guesses| - 1] == word))
  }

  lemma OneMoreGuess(word: Word, guesses: seq<Word>, colors: seq<seq<Color>>, up: Word, scored: seq<Color>)
    requires GameOk(word, guesses, colors, false) && |up| == |word| && scored == Colors(up, word)
    ensures GameOk(word, guesses + [up], colors + [scored], up == word || |guesses| + 1 == GUESSES_ALLOWED)
    ensures |guesses| < GUESSES_ALLOWED
  {
    hide Colors;
  }

  class Sessions {
    const wordOf: Day -> Word
    const dictionary: set<Word>
    var sessions: map<int, Session>
    /** The games reported as finished, and the latest day anybody started on. */
    ghost var reported: seq<(int, Day)>
    ghost var latest: Day

    ghost predicate GamesOk()
      reads this`sessions, sessions.Values
    {
      && (forall p | p in sessions ::
            GameOk(wordOf(sessions[p].date), sessions[p].guesses, sessions[p].colors, sessions[p].done))
      && (forall p, q | p in sessions && q in sessions && p != q :: sessions[p] != sessions[q])
    }

    /** Nobody's game is reported twice: what was reported is an older day's, or done. */
    ghost predicate ReportsOk()
      reads this, sessions.Values
    {
      && (forall p | p in sessions :: sessions[p].date <= latest)
      && (forall i | 0 <= i < |reported| ::
            && reported[i].0 in sessions
            && (var s := sessions[reported[i].0]; reported[i].1 < s.date || (reported[i].1 == s.date && s.done)))
      && (forall i, j | 0 <= i < j < |reported| :: reported[i] != reported[j])
    }

    ghost predicate Valid()
      reads this, sessions.Values
    {
      (forall d :: wordOf(d) != []) && GamesOk() && ReportsOk()
    }

    constructor (wordOf: Day -> Word, dictionary: set<Word>, today: Day)
      requires forall d :: wordOf(d) != []
      ensures Valid() && sessions == map[] && latest == today && reported == []
    {
      this.wordOf, this.dictionary := wordOf, dictionary;
      sessions, reported, latest := map[], [], today;
    }

    /** Starts today's game, unless it's already running: a reloaded client gets its
        guesses back, and the clock it started with. */
    method Start(pid: int, now: Time, today: Day) returns (r: Resume)
      requires Valid() && latest <= today
      modifies this`sessions, this`latest
      ensures Valid() && latest == today && reported == old(reported)
      ensures pid in sessions && sessions[pid].date == today
      ensures if pid in old(sessions) && old(sessions)[pid].date == today then sessions == old(sessions)
              else fresh(sessions[pid]) && sessions == old(sessions)[pid := sessions[pid]]
                   && sessions[pid].start == now && sessions[pid].guesses == []
      ensures r == Resume(sessions[pid].guesses, sessions[pid].colors, now - sessions[pid].start)
    {
      latest := today;
      if pid !in sessions || sessions[pid].date != today {
        var s := new Session(today, now);
        sessions := sessions[pid := s];
      }
      var s := sessions[pid];
      return Resume(s.guesses, s.colors, now - s.start);
    }

    /** A guess in the player's game. The game is reported exactly when this guess ends it. */
    method Guess(pid: int, guess: Word, now: Time, played: Day -> bool) returns (r: Reply, finished: Option<Finished>)
      requires Valid()
      modifies this`reported, if pid in sessions then {sessions[pid]} else {}
      ensures Valid() && sessions == old(sessions) && latest == old(latest)
      ensures r.valid <==>
                && pid in sessions && !old(sessions[pid].done) && !played(sessions[pid].date)
                && |guess| == |wordOf(sessions[pid].date)| && Upper(guess) in dictionary
      ensures !r.valid ==> r.status == InGame && finished == None
                           && (pid in sessions ==> sessions[pid].guesses == old(sessions[pid].guesses))
      ensures r.valid ==>
                var s, up := sessions[pid], Upper(guess);
                && s.guesses == old(s.guesses) + [up] && s.colors == old(s.colors) + [r.colors]
                && r.colors == Colors(up, wordOf(s.date))
                && (r.status == Win <==> up == wordOf(s.date))
                && (r.status == Lose <==> up != wordOf(s.date) && |s.guesses| == GUESSES_ALLOWED)
                && finished == if r.status == InGame then None
                               else Some(Finished(s.date, r.status == Win, |s.guesses|, now - s.start))
      ensures reported == if finished.Some? then old(reported) + [(pid, finished.value.date)] else old(reported)
    {
      hide Colors, Solves, Fair, GameOk;
      r, finished := Reply(false, InGame, []), None;
      if pid !in sessions || sessions[pid].done || played(sessions[pid].date) {
        return;
      }
      var s := sessions[pid];
      var word := wordOf(s.date);
      var scored := Score(guess, word, dictionary);
      if !scored.valid {
        return;
      }
      FairIsColors(Upper(guess), word, scored.colors);
      SolvesExactly(Upper(guess), word);
      OneMoreGuess(word, s.guesses, s.colors, Upper(guess), scored.colors);
      s.guesses, s.colors := s.guesses + [Upper(guess)], s.colors + [scored.colors];
      var status := if Solves(scored.colors) then Win else if |s.guesses| >= GUESSES_ALLOWED then Lose else InGame;
      r := Reply(true, status, scored.colors);
      if r.status != InGame {
        s.done := true;
        finished := Some(Finished(s.date, r.status == Win, |s.guesses|, now - s.start));
        reported := reported + [(pid, s.date)];
      }
    }
  }
}
