/** Missiles depend on time, not on how often it is looked at (internal/game/abilities.go:432-442,
649-657): each flies until it is due, lands once then, and none is lost or made on the way. */
module Missiles {
  import opened Boards
  import opened DuelSides
  import opened DuelRules

  /** A missile that isn't due flies on, as often as it was there; one that is due is gone. */
  lemma {:induction false} FlyingExactly(missiles: seq<Time>, now: Time, at: Time)
    ensures multiset(Flying(missiles, now))[at] == if now < at then multiset(missiles)[at] else 0
  {
    if missiles != [] {
      var init := missiles[..|missiles| - 1];
      FlyingExactly(init, now, at);
      assert missiles == init + [missiles[|missiles| - 1]];
    }
  }

  /** Every missile either lands or flies on. */
  lemma {:induction false} NoneLost(missiles: seq<Time>, now: Time)
    ensures DueCount(missiles, now) + |Flying(missiles, now)| == |missiles|
    ensures (forall i | 0 <= i < |missiles| :: now < missiles[i]) ==> Flying(missiles, now) == missiles
  {
    if missiles != [] {
      var init := missiles[..|missiles| - 1];
      NoneLost(init, now);
      assert missiles == init + [missiles[|missiles| - 1]];
      assert forall i | 0 <= i < |init| :: init[i] == missiles[i];
    }
  }

  lemma {:induction false} FlyingAppends(missiles: seq<Time>, last: Time, now: Time)
    ensures Flying(missiles + [last], now) == Flying(missiles, now) + if Due(last, now) then [] else [last]
    ensures DueCount(missiles + [last], now) == DueCount(missiles, now) + if Due(last, now) then 1 else 0
  {
    assert (missiles + [last])[..|missiles|] == missiles;
  }

  /** What flies on at t is due, or flies on, at a later u as if nobody had looked at t. */
  lemma {:induction false} FlyingTwice(missiles: seq<Time>, t: Time, u: Time)
    requires t <= u
    ensures Flying(Flying(missiles, t), u) == Flying(missiles, u)
    ensures DueCount(missiles, t) + DueCount(Flying(missiles, t), u) == DueCount(missiles, u)
  {
    if missiles != [] {
      var init, last := missiles[..|missiles| - 1], missiles[|missiles| - 1];
      FlyingTwice(init, t, u);
      FlyingAppends(Flying(init, t), last, u);
      assert Flying(init, t) + [] == Flying(init, t);
    }
  }

  lemma StruckStays(s: Side, k: nat)
    requires 0 <= s.fx.energy
    ensures 0 <= Struck(s, k).fx.energy && Struck(s, k).fx.missiles == s.fx.missiles
  {
  }

  lemma {:induction false} StruckAdds(s: Side, k: nat, l: nat)
    requires 0 <= s.fx.energy
    ensures Struck(Struck(s, k), l) == Struck(s, k + l)
  {
    hide Struck, MissileLanded;
    StruckStays(s, k);
    if l == 0 {
      StruckByNone(Struck(s, k));
    } else {
      StruckAdds(s, k, l - 1);
      StruckOnce(Struck(s, k), l - 1);
      StruckOnce(s, k + l - 1);
    }
  }

  lemma StruckByNone(s: Side)
    requires 0 <= s.fx.energy
    ensures Struck(s, 0) == s
  {
  }

  lemma StruckElsewhere(s: Side, missiles: seq<Time>, k: nat)
    ensures Struck(s.(fx := s.fx.(missiles := missiles)), k)
         == Struck(s, k).(fx := Struck(s, k).fx.(missiles := missiles))
  {
  }

  /** Looking at t and then at u is looking at u. */
  lemma LandedTwice(s: Side, t: Time, u: Time)
    requires t <= u && 0 <= s.fx.energy
    ensures Landed(Landed(s, t), u) == Landed(s, u)
  {
    hide Struck, Flying, DueCount;
    var k, l := DueCount(s.fx.missiles, t), DueCount(Flying(s.fx.missiles, t), u);
    FlyingTwice(s.fx.missiles, t, u);
    StruckElsewhere(Struck(s, k), Flying(s.fx.missiles, t), l);
    StruckAdds(s, k, l);
  }

  function LandedRun(s: Side, ticks: seq<Time>): Side {
    if ticks == [] then s else Landed(LandedRun(s, ticks[..|ticks| - 1]), ticks[|ticks| - 1])
  }

  /** Every schedule of ticks that ends at the same time has landed the same missiles, to
      the same effect, and left the same ones flying. */
  lemma {:induction false} MissilesDependOnTime(s: Side, ticks: seq<Time>)
    requires ticks != [] && Ordered(ticks) && 0 <= s.fx.energy
    ensures LandedRun(s, ticks) == Landed(s, ticks[|ticks| - 1])
  {
    hide Landed;
    var n := |ticks| - 1;
    if n == 0 {
      assert ticks[..0] == [];
    } else {
      var init := ticks[..n];
      MissilesDependOnTime(s, init);
      LandedTwice(s, init[n - 1], ticks[n]);
    }
  }

  /** The harm, in numbers: of the missiles that land a shield stops one; each of the rest
      takes five energy, as far as there is any, and a row, as far as one unused is left. */
  lemma MissileHarm(s: Side, now: Time)
    requires 0 <= s.fx.energy
    ensures var t, due := Landed(s, now), |s.fx.missiles| - |Flying(s.fx.missiles, now)|;
            var hits := if s.fx.shield && due > 0 then due - 1 else due;
            && t.fx.energy == (if 5 * hits < s.fx.energy then s.fx.energy - 5 * hits else 0)
            && (s.UnusedRows() >= 1 ==> t.UnusedRows() == if hits < s.UnusedRows() then s.UnusedRows() - hits else 1)
            && (s.UnusedRows() < 1 ==> t.rows == s.rows)
            && (t.fx.shield <==> s.fx.shield && due == 0)
            && t.guesses == s.guesses
  {
    NoneLost(s.fx.missiles, now);
  }
}
