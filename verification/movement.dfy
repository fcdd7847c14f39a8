/** Movement allowance (internal/game/movement.go).

Time is real seconds and never goes back. `Distance` stands for math.Hypot: a
metric on positions. `Walk` is what a player's fields amount to, `Stepped` what
one Move does to it, and the lemmas are about any run of moves, accepted or not. */
module Movement {
  import opened Grids

  const MOVE_SPEED := 450.0
  /** MOVE_SPEED with a tolerance of 1.25, and one second's worth of it. */
  const RATE := 562.5
  const CAP := 562.5

  type Distance = (Vec, Vec) -> real

  ghost predicate IsMetric(dist: Distance) {
    && (forall p, q :: dist(p, q) >= 0.0)
    && (forall p :: dist(p, p) == 0.0)
    && (forall p, q, r :: dist(p, r) <= dist(p, q) + dist(q, r))
  }

  /** The map's extent. */
  datatype Bounds = Bounds(width: int, height: int)

  predicate InBounds(m: Bounds, p: Vec) {
    0 <= p.x <= m.width && 0 <= p.y <= m.height
  }

  datatype Walk = Walk(pos: Vec, budget: real, budgetAt: real)

  ghost predicate WalkValid(m: Bounds, w: Walk) {
    0.0 <= w.budget <= CAP && InBounds(m, w.pos)
  }

  /** The allowance at a later time: it fills at RATE up to CAP. */
  function Refilled(w: Walk, now: real): real {
    var b := w.budget + RATE * (now - w.budgetAt);
    if CAP < b then CAP else b
  }

  predicate Accepted(m: Bounds, dist: Distance, w: Walk, pos: Vec, now: real) {
    pos == w.pos || (InBounds(m, pos) && dist(w.pos, pos) <= Refilled(w, now))
  }

  function Stepped(m: Bounds, dist: Distance, w: Walk, pos: Vec, now: real): Walk {
    if pos == w.pos || !InBounds(m, pos) then w
    else if dist(w.pos, pos) <= Refilled(w, now) then Walk(pos, Refilled(w, now) - dist(w.pos, pos), now)
    else w.(budget := Refilled(w, now), budgetAt := now)
  }

  class Player {
    var pos: Vec
    var budget: real
    var budgetAt: real

    function State(): Walk
      reads this
    {
      Walk(pos, budget, budgetAt)
    }

    /** Joining the world: half the allowance to start with. */
    constructor (spawn: Vec, now: real)
      ensures State() == Walk(spawn, CAP / 2.0, now)
    {
      pos := spawn;
      budget := CAP / 2.0;
      budgetAt := now;
    }

    method Spend(d: real, now: real) returns (ok: bool)
      modifies this`budget, this`budgetAt
      ensures ok <==> d <= Refilled(old(State()), now)
      ensures budget == Refilled(old(State()), now) - if ok then d else 0.0
      ensures budgetAt == now
    {
      var b := budget + RATE * (now - budgetAt);
      budget := if CAP < b then CAP else b;
      budgetAt := now;
      if d > budget {
        return false;
      }
      budget := budget - d;
      return true;
    }

    /** Moves to p if that's possible; otherwise the client is corrected. */
    method Move(m: Bounds, dist: Distance, p: Vec, now: real) returns (corrected: bool)
      modifies this
      ensures State() == Stepped(m, dist, old(State()), p, now)
      ensures corrected <==> !Accepted(m, dist, old(State()), p, now)
      ensures corrected ==> pos == old(pos)
    {
      if p == pos {
        return false;
      }
      var d := dist(pos, p);
      if !InBounds(m, p) {
        return true;
      }
      var ok := Spend(d, now);
      if !ok {
        return true;
      }
      pos := p;
      return false;
    }
  }

  // ----- Runs

  datatype Attempt = Attempt(pos: Vec, at: real)

  function Run(m: Bounds, dist: Distance, w: Walk, tries: seq<Attempt>): Walk
    decreases |tries|
  {
    if tries == [] then w
    else Run(m, dist, Stepped(m, dist, w, tries[0].pos, tries[0].at), tries[1..])
  }

  /** The distance covered by the moves of a run that were accepted. */
  function Travelled(m: Bounds, dist: Distance, w: Walk, tries: seq<Attempt>): real
    decreases |tries|
  {
    if tries == [] then 0.0
    else
      (if Accepted(m, dist, w, tries[0].pos, tries[0].at) then dist(w.pos, tries[0].pos) else 0.0)
      + Travelled(m, dist, Stepped(m, dist, w, tries[0].pos, tries[0].at), tries[1..])
  }

  /** The attempts come in order, from time t0 to time t1. */
  ghost predicate Ordered(tries: seq<Attempt>, t0: real, t1: real) {
    && t0 <= t1
    && (forall i | 0 <= i < |tries| :: t0 <= tries[i].at <= t1)
    && (forall i, j | 0 <= i < j < |tries| :: tries[i].at <= tries[j].at)
  }

  lemma RefillGrows(w: Walk, t0: real, t1: real)
    requires w.budgetAt <= t0 <= t1
    ensures Refilled(w, t1) <= Refilled(w, t0) + RATE * (t1 - t0)
  {
  }

  /** One attempt keeps the player valid and pays for exactly the distance moved. */
  lemma StepPays(m: Bounds, dist: Distance, w: Walk, t: Attempt)
    requires IsMetric(dist) && WalkValid(m, w) && w.budgetAt <= t.at
    ensures var next := Stepped(m, dist, w, t.pos, t.at);
            && WalkValid(m, next) && next.budgetAt <= t.at
            && Refilled(next, t.at) + (if Accepted(m, dist, w, t.pos, t.at) then dist(w.pos, t.pos) else 0.0)
               == Refilled(w, t.at)
  {
    assert dist(w.pos, t.pos) >= 0.0;
    assert RATE * (t.at - w.budgetAt) >= 0.0;
  }

  /** The allowance stays between 0 and CAP and positions inside the map. */
  lemma {:induction false} RunValid(m: Bounds, dist: Distance, w: Walk, tries: seq<Attempt>, t0: real, t1: real)
    requires IsMetric(dist) && WalkValid(m, w) && w.budgetAt <= t0 && Ordered(tries, t0, t1)
    decreases |tries|
    ensures WalkValid(m, Run(m, dist, w, tries)) && Run(m, dist, w, tries).budgetAt <= t1
  {
    if tries != [] {
      StepPays(m, dist, w, tries[0]);
      RunValid(m, dist, Stepped(m, dist, w, tries[0].pos, tries[0].at), tries[1..], tries[0].at, t1);
    }
  }

  /** What a run covers, plus what is left, is paid for by the clock. */
  lemma {:induction false} TravelPaid(m: Bounds, dist: Distance, w: Walk, tries: seq<Attempt>, t0: real, t1: real)
    requires IsMetric(dist) && WalkValid(m, w) && w.budgetAt <= t0 && Ordered(tries, t0, t1)
    decreases |tries|
    ensures Travelled(m, dist, w, tries) + Refilled(Run(m, dist, w, tries), t1)
         <= Refilled(w, t0) + RATE * (t1 - t0)
  {
    if tries == [] {
      RefillGrows(w, t0, t1);
    } else {
      var t := tries[0];
      var next := Stepped(m, dist, w, t.pos, t.at);
      RefillGrows(w, t0, t.at);
      StepPays(m, dist, w, t);
      TravelPaid(m, dist, next, tries[1..], t.at, t1);
    }
  }

  lemma {:induction false} RunSplits(m: Bounds, dist: Distance, w: Walk, first: seq<Attempt>, rest: seq<Attempt>)
    decreases |first|
    ensures Run(m, dist, w, first + rest) == Run(m, dist, Run(m, dist, w, first), rest)
  {
    if first == [] {
      assert first + rest == rest;
    } else {
      assert (first + rest)[1..] == first[1..] + rest;
      RunSplits(m, dist, Stepped(m, dist, w, first[0].pos, first[0].at), first[1..], rest);
    }
  }

  lemma {:induction false} Displaced(m: Bounds, dist: Distance, w: Walk, tries: seq<Attempt>)
    requires IsMetric(dist)
    decreases |tries|
    ensures dist(w.pos, Run(m, dist, w, tries).pos) <= Travelled(m, dist, w, tries)
  {
    if tries != [] {
      Displaced(m, dist, Stepped(m, dist, w, tries[0].pos, tries[0].at), tries[1..]);
    }
  }

  /** No speeding, over any window of any run: whatever is tried before and during
      it, the accepted moves between times t0 and t1 cover at most
      562.5 * (1 + t1 - t0), so nobody gets further than that either. */
  lemma SpeedLimit(m: Bounds, dist: Distance, w: Walk, before: seq<Attempt>, window: seq<Attempt>, start: real, t0: real, t1: real)
    requires IsMetric(dist) && WalkValid(m, w) && w.budgetAt <= start
    requires Ordered(before, start, t0) && Ordered(window, t0, t1)
    ensures var at0 := Run(m, dist, w, before);
            var at1 := Run(m, dist, w, before + window);
            && Travelled(m, dist, at0, window) <= 562.5 * (1.0 + t1 - t0)
            && dist(at0.pos, at1.pos) <= 562.5 * (1.0 + t1 - t0)
  {
    RunValid(m, dist, w, before, start, t0);
    var at0 := Run(m, dist, w, before);
    RunSplits(m, dist, w, before, window);
    RunValid(m, dist, at0, window, t0, t1);
    TravelPaid(m, dist, at0, window, t0, t1);
    Displaced(m, dist, at0, window);
  }

  /** An honest client's next move: inside the map, at most MOVE_SPEED since the
      last attempt, and not silent for more than 1.25 s. */
  predicate HonestStep(m: Bounds, dist: Distance, prev: Attempt, t: Attempt) {
    && InBounds(m, t.pos)
    && prev.at <= t.at <= prev.at + 1.25
    && dist(prev.pos, t.pos) <= MOVE_SPEED * (t.at - prev.at)
  }

  predicate Honest(m: Bounds, dist: Distance, prev: Attempt, tries: seq<Attempt>)
    decreases |tries|
  {
    tries == [] || (HonestStep(m, dist, prev, tries[0]) && Honest(m, dist, tries[0], tries[1..]))
  }

  lemma HonestStepAccepted(m: Bounds, dist: Distance, w: Walk, last: real, t: Attempt)
    requires WalkValid(m, w) && w.budgetAt <= last
    requires HonestStep(m, dist, Attempt(w.pos, last), t)
    ensures Accepted(m, dist, w, t.pos, t.at)
    ensures Stepped(m, dist, w, t.pos, t.at).pos == t.pos
  {
  }

  /** An honest client is never corrected, so the server follows every move. */
  lemma {:induction false} HonestNeverCorrected(m: Bounds, dist: Distance, w: Walk, last: real, tries: seq<Attempt>)
    requires IsMetric(dist) && WalkValid(m, w) && w.budgetAt <= last
    requires Honest(m, dist, Attempt(w.pos, last), tries)
    decreases |tries|
    ensures forall i | 0 <= i < |tries| ::
              && Accepted(m, dist, Run(m, dist, w, tries[..i]), tries[i].pos, tries[i].at)
              && Run(m, dist, w, tries[..i + 1]).pos == tries[i].pos
  {
    if tries != [] {
      var t := tries[0];
      var next := Stepped(m, dist, w, t.pos, t.at);
      HonestStepAccepted(m, dist, w, last, t);
      StepPays(m, dist, w, t);
      HonestNeverCorrected(m, dist, next, t.at, tries[1..]);
      forall i | 0 <= i < |tries|
        ensures Accepted(m, dist, Run(m, dist, w, tries[..i]), tries[i].pos, tries[i].at)
             && Run(m, dist, w, tries[..i + 1]).pos == tries[i].pos
      {
        assert tries[..i + 1][1..] == tries[1..][..i];
        if i > 0 {
          assert tries[..i][1..] == tries[1..][..i - 1];
          assert tries[1..][i - 1] == tries[i];
        }
      }
    }
  }
}
