/** Challenges, and duels from their start to their end (internal/game/duel.go,
internal/game/world.go). What happens inside a duel is left to duel.dfy: here a duel
ends at some point, with some winner, by some margin. */
module Matchmaking {
  import opened Boards
  import opened Ranges
  import Elo
  import DuelTurns

  const CHALLENGE_TIMEOUT: Time := 30 * SECOND

  /** A connection. */
  type Client = nat

  class Player {
    const client: Client
    var rating: Elo.Rating
    /** Null exactly when in no live duel. */
    var duel: Duel?

    constructor (client: Client, rating: Elo.Rating)
      ensures this.client == client && this.rating == rating && duel == null
    {
      this.client, this.rating, duel := client, rating, null;
    }
  }

  class Duel {
    const a: Player
    const b: Player
    const ranked: bool
    /** What the challenge promised b, if it was ranked. */
    ghost const shown: Option<Elo.Stake>

    constructor (a: Player, b: Player, ranked: bool, ghost shown: Option<Elo.Stake>)
      ensures this.a == a && this.b == b && this.ranked == ranked && this.shown == shown
    {
      this.a, this.b, this.ranked, this.shown := a, b, ranked, shown;
    }

    predicate Has(p: Player) {
      p == a || p == b
    }

    function Other(p: Player): Player {
      if p == a then b else a
    }
  }

  datatype PendingChallenge = PendingChallenge(from: Player, to: Player, expires: Time, ranked: bool) {
    predicate Names(p: Player) { from == p || to == p }
  }

  datatype ChallengeResult = Ignored | Unavailable | Busy | AlreadySent | Sent(id: nat)
  datatype Response = NotYours | Declined | WasBusy | Started(d: Duel)

  /** A ranked duel handed off to be saved. */
  datatype Match = Match(d: Duel, outcome: Elo.Outcome, result: Elo.Result)

  function NotNaming(challenges: map<nat, PendingChallenge>, p: Player): map<nat, PendingChallenge> {
    map id | id in challenges && !challenges[id].Names(p) :: challenges[id]
  }

  function Live(challenges: map<nat, PendingChallenge>, now: Time): map<nat, PendingChallenge> {
    map id | id in challenges && now < challenges[id].expires :: challenges[id]
  }

  /** A decided duel moved the challenged player inside what the challenge promised. */
  ghost predicate Kept(m: Match) {
    m.outcome != Elo.Draw ==>
      m.d.shown.Some? && Elo.WithinStakes(m.d.shown.value, m.outcome == Elo.BWins, m.result.deltaB)
  }

  /** Each ranked duel that is over was settled and handed off exactly once, and no other;
      every promise was kept. */
  ghost predicate SavedOk(duels: set<Duel>, started: set<Duel>, saved: seq<Match>) {
    && duels <= started
    && (forall i | 0 <= i < |saved| :: saved[i].d in started && saved[i].d.ranked && saved[i].d !in duels)
    && (forall i, j | 0 <= i < j < |saved| :: saved[i].d != saved[j].d)
    && (forall i | 0 <= i < |saved| :: Kept(saved[i]))
    && (forall d | d in started && d.ranked && d !in duels :: exists i :: 0 <= i < |saved| && saved[i].d == d)
  }

  lemma SavedAtEnd(duels: set<Duel>, started: set<Duel>, saved: seq<Match>, d: Duel, last: Match)
    requires SavedOk(duels, started, saved) && d in duels && last.d == d && (d.ranked ==> Kept(last))
    ensures SavedOk(duels - {d}, started, if d.ranked then saved + [last] else saved)
  {
    hide Kept;
    var after := if d.ranked then saved + [last] else saved;
    forall e | e in started && e.ranked && e !in duels - {d} ensures exists i :: 0 <= i < |after| && after[i].d == e {
      if e == d {
        assert after[|saved|].d == e;
      } else {
        var i :| 0 <= i < |saved| && saved[i].d == e;
        assert after[i].d == e;
      }
    }
  }

  class World {
    const pow: real -> real
    var players: map<Client, Player>
    var challenges: map<nat, PendingChallenge>
    var nextChallenge: nat
    var duels: set<Duel>
    /** The stakes sent with each ranked challenge. */
    ghost var shown: map<nat, Elo.Stake>
    /** Every duel there ever was, and what was handed off to be saved. */
    ghost var started: set<Duel>
    /** When expired challenges were last dropped. */
    ghost var swept: Time
    ghost var saved: seq<Match>

    predicate Present(p: Player)
      reads this`players
    {
      p.client in players && players[p.client] == p
    }

    /** A player points at a duel exactly when it is live and they are one of its two
        different sides. */
    ghost predicate DuelsOk()
      reads this`players, this`duels, players.Values`duel
    {
      && (forall c | c in players ::
            && players[c].client == c
            && (players[c].duel != null ==> players[c].duel in duels && players[c].duel.Has(players[c])))
      && (forall d | d in duels ::
            d.a != d.b && Present(d.a) && Present(d.b) && d.a.duel == d && d.b.duel == d)
    }

    /** A pending challenge joins two different present players, neither dueling; nobody
        has two of their own. */
    ghost predicate ChallengesOk(pending: map<nat, PendingChallenge>)
      reads this`players, players.Values`duel
    {
      && (forall id | id in pending ::
            && pending[id].from != pending[id].to
            && Present(pending[id].from) && Present(pending[id].to)
            && pending[id].from.duel == null && pending[id].to.duel == null)
      && (forall id, k | id in pending && k in pending && id != k :: pending[id].from != pending[k].from)
    }

    /** While a ranked challenge stands, what was promised is what both ratings still mean. */
    ghost predicate PromisesOk(pending: map<nat, PendingChallenge>, shown: map<nat, Elo.Stake>)
      requires Elo.IsPower(pow)
      reads this`players, players.Values`rating
    {
      forall id | id in pending && pending[id].ranked && Present(pending[id].from) && Present(pending[id].to) ::
        id in shown && shown[id] == Elo.Stakes(pow, pending[id].to.rating, pending[id].from.rating)
    }

    /** ... and while a ranked duel lasts. */
    ghost predicate StakesOk(duels: set<Duel>)
      requires Elo.IsPower(pow)
      reads this`players, players.Values`rating
    {
      && (forall c | c in players :: Elo.Sound(players[c].rating))
      && (forall d | d in duels && d.ranked && Present(d.a) && Present(d.b) ::
            d.shown == Some(Elo.Stakes(pow, d.b.rating, d.a.rating)))
    }

    ghost predicate Valid()
      reads this, players.Values
    {
      Elo.IsPower(pow) && DuelsOk() && ChallengesOk(challenges) && PromisesOk(challenges, shown)
      && StakesOk(duels) && SavedOk(duels, started, saved) && forall id | id in challenges :: id <= nextChallenge && swept < challenges[id].expires
    }

    constructor (pow: real -> real, ghost now: Time)
      requires Elo.IsPower(pow)
      ensures swept == now
      ensures Valid() && players == map[] && challenges == map[] && duels == {}
    {
      this.pow := pow;
      players, challenges, nextChallenge, duels := map[], map[], 0, {};
      shown, started, saved, swept := map[], {}, [], now;
    }

    // ----- Challenges

    /** p challenges t, who may not be in view, or anywhere. */
    method Challenge(c: Client, target: Client, inView: bool, isRanked: bool, now: Time) returns (r: ChallengeResult)
      requires Valid() && swept <= now
      modifies this`challenges, this`nextChallenge, this`shown
      ensures Valid()
      ensures !r.Sent? ==> challenges == old(challenges)
      ensures r.Sent? ==>
                && c in players && target in players && players[c].duel == null && players[target].duel == null
                && r.id !in old(challenges)
                && challenges == NotFrom(old(challenges), players[c])[
                     r.id := PendingChallenge(players[c], players[target], now + CHALLENGE_TIMEOUT, isRanked)]
                && (isRanked ==> r.id in shown && shown[r.id] == Elo.Stakes(pow, players[target].rating, players[c].rating))
      ensures forall k | k in old(shown) && k <= old(nextChallenge) :: k in shown && shown[k] == old(shown)[k]
      ensures r.Ignored? <==> c !in players
      ensures r.Unavailable? <==> c in players && (target !in players || players[target] == players[c] || !inView)
      ensures r.Busy? <==> !r.Ignored? && !r.Unavailable? && (players[c].duel != null || players[target].duel != null)
      ensures r.AlreadySent? <==>
                && !r.Ignored? && !r.Unavailable? && !r.Busy?
                && Waiting(old(challenges), players[c], players[target], isRanked)
    {
      if c !in players {
        return Ignored;
      }
      var p := players[c];
      if target !in players || players[target] == p || !inView {
        return Unavailable;
      }
      var t := players[target];
      if p.duel != null || t.duel != null {
        return Busy;
      }
      hide Elo.IsPower, SavedOk, StakesOk, DuelsOk, ChallengesOk, PromisesOk, Waiting;
      r := ChallengeFree(p, t, isRanked, now);
    }

    /** Between two players who are free to duel. */
    method ChallengeFree(p: Player, t: Player, isRanked: bool, now: Time) returns (r: ChallengeResult)
      requires Valid() && swept <= now && Present(p) && Present(t) && p != t && p.duel == null && t.duel == null
      modifies this`challenges, this`nextChallenge, this`shown
      ensures Valid() && (r.AlreadySent? || r.Sent?)
      ensures r.AlreadySent? <==> Waiting(old(challenges), p, t, isRanked)
      ensures r.AlreadySent? ==> challenges == old(challenges)
      ensures r.Sent? ==>
                && r.id !in old(challenges)
                && challenges == NotFrom(old(challenges), p)[r.id := PendingChallenge(p, t, now + CHALLENGE_TIMEOUT, isRanked)]
                && (isRanked ==> r.id in shown && shown[r.id] == Elo.Stakes(pow, t.rating, p.rating))
      ensures forall k | k in old(shown) && k <= old(nextChallenge) :: k in shown && shown[k] == old(shown)[k]
    {
      hide Elo.IsPower, Elo.Stakes, SavedOk, StakesOk, DuelsOk, ChallengesOk, PromisesOk, Waiting;
      ghost var before := challenges;
      var already := ReplaceOwn(p, t, isRanked);
      if already {
        return AlreadySent;
      }
      Fewer(before, challenges);
      Post(p, t, isRanked, now);
      return Sent(nextChallenge);
    }

    /** Drops p's pending challenge, unless it is this very one. */
    method ReplaceOwn(p: Player, t: Player, isRanked: bool) returns (already: bool)
      requires ChallengesOk(challenges)
      modifies this`challenges
      ensures already <==> Waiting(old(challenges), p, t, isRanked)
      ensures challenges == if already then old(challenges) else NotFrom(old(challenges), p)
    {
      hide ChallengesOk;
      var order := InSomeOrder(challenges.Keys);
      ghost var before := challenges;
      for i := 0 to |order|
        invariant challenges == map id | id in before && !(id in order[..i] && before[id].from == p) :: before[id]
        invariant forall id | id in order[..i] && before[id].from == p :: !(before[id].to == t && before[id].ranked == isRanked)
      {
        var id := order[i];
        assert id in order && id !in order[..i] && order[..i + 1] == order[..i] + [id];
        var ch := challenges[id];
        if ch.from == p {
          if ch.to == t && ch.ranked == isRanked {
            // this very challenge is pending
            OnlyOwn(order[..i], id, p, before);
            return true;
          }
          challenges := challenges - {id};
        }
      }
      assert order[..|order|] == order;
      return false;
    }

    lemma Fewer(pending: map<nat, PendingChallenge>, left: map<nat, PendingChallenge>)
      requires Elo.IsPower(pow) && ChallengesOk(pending) && PromisesOk(pending, shown)
      requires forall id | id in left :: id in pending && left[id] == pending[id]
      ensures ChallengesOk(left) && PromisesOk(left, shown)
    {
      hide Elo.IsPower, Elo.Stakes;
    }

    /** Only one pending challenge is p's own. */
    lemma OnlyOwn(ids: seq<nat>, id: nat, p: Player, pending: map<nat, PendingChallenge>)
      requires ChallengesOk(pending) && id in pending && pending[id].from == p && id !in ids
      ensures forall k | k in pending && k in ids :: pending[k].from != p
    {
    }

    lemma OneMore(pending: map<nat, PendingChallenge>, id: nat, ch: PendingChallenge, stakes: Elo.Stake)
      requires Elo.IsPower(pow) && ChallengesOk(pending) && PromisesOk(pending, shown) && id !in pending
      requires Present(ch.from) && Present(ch.to) && ch.from != ch.to && ch.from.duel == null && ch.to.duel == null
      requires forall k | k in pending :: pending[k].from != ch.from
      requires ch.ranked ==> stakes == Elo.Stakes(pow, ch.to.rating, ch.from.rating)
      ensures ChallengesOk(pending[id := ch])
      ensures PromisesOk(pending[id := ch], if ch.ranked then shown[id := stakes] else shown)
    {
      hide Elo.IsPower, Elo.Stakes;
    }

    method Post(p: Player, t: Player, isRanked: bool, now: Time)
      requires Valid() && swept <= now && Present(p) && Present(t) && p != t && p.duel == null && t.duel == null
      requires forall id | id in challenges :: challenges[id].from != p
      modifies this`challenges, this`nextChallenge, this`shown
      ensures Valid() && nextChallenge == old(nextChallenge) + 1
      ensures challenges == old(challenges)[nextChallenge := PendingChallenge(p, t, now + CHALLENGE_TIMEOUT, isRanked)]
      ensures isRanked ==> nextChallenge in shown && shown[nextChallenge] == Elo.Stakes(pow, t.rating, p.rating)
      ensures forall k | k in old(shown) && k <= old(nextChallenge) :: k in shown && shown[k] == old(shown)[k]
    {
      hide Elo.IsPower, Elo.Stakes, SavedOk, StakesOk, DuelsOk, ChallengesOk, PromisesOk;
      nextChallenge := nextChallenge + 1;
      var ch := PendingChallenge(p, t, now + CHALLENGE_TIMEOUT, isRanked);
      ghost var stakes := Elo.Stakes(pow, t.rating, p.rating);
      OneMore(challenges, nextChallenge, ch, stakes);
      challenges := challenges[nextChallenge := ch];
      if isRanked {
        shown := shown[nextChallenge := stakes];
      }
    }

    /** Drops every challenge to or from p. */
    method CancelChallenges(p: Player)
      modifies this`challenges
      ensures challenges == NotNaming(old(challenges), p)
    {
      var order := InSomeOrder(challenges.Keys);
      ghost var before := challenges;
      for i := 0 to |order|
        invariant challenges == map id | id in before && !(id in order[..i] && before[id].Names(p)) :: before[id]
      {
        var id := order[i];
        assert id in order && id !in order[..i] && order[..i + 1] == order[..i] + [id];
        if challenges[id].Names(p) {
          challenges := challenges - {id};
        }
      }
      assert order[..|order|] == order;
    }

    /** Leaves exactly the challenges that have not expired by now. */
    method ExpireChallenges(now: Time)
      requires Valid() && swept <= now
      modifies this`challenges, this`swept
      ensures Valid() && challenges == Live(old(challenges), now) && swept == now
    {
      hide Elo.IsPower, SavedOk, StakesOk, DuelsOk, ChallengesOk, PromisesOk;
      ghost var before := challenges;
      DropExpired(now);
      Fewer(before, challenges);
      swept := now;
    }

    method DropExpired(now: Time)
      modifies this`challenges
      ensures challenges == Live(old(challenges), now)
    {
      var order := InSomeOrder(challenges.Keys);
      ghost var before := challenges;
      for i := 0 to |order|
        invariant challenges == map id | id in before && !(id in order[..i] && before[id].expires <= now) :: before[id]
      {
        var id := order[i];
        assert id in order && id !in order[..i] && order[..i + 1] == order[..i] + [id];
        if challenges[id].expires <= now {
          challenges := challenges - {id};
        }
      }
      assert order[..|order|] == order;
    }

    /** Nothing happens but for the challenge's target. Accepting starts a duel at once,
        on the terms of the challenge: nobody is ever found busy. Whether the challenge is
        late makes no difference, but it can be late only until the next sweep. */
    method RespondDuel(c: Client, id: nat, accept: bool, now: Time) returns (r: Response, ghost late: bool)
      requires Valid() && swept <= now
      modifies this`challenges, this`duels, this`started, players.Values`duel
      ensures Valid() && !r.WasBusy?
      ensures r.NotYours? <==> !(c in players && id in old(challenges) && old(challenges)[id].to == players[c])
      ensures r.NotYours? ==> challenges == old(challenges) && duels == old(duels)
      ensures r.Declined? <==> !r.NotYours? && !accept
      ensures late <==> id in old(challenges) && old(challenges)[id].expires <= now
      ensures late ==> swept < now
      ensures r.Declined? ==> challenges == old(challenges) - {id} && duels == old(duels)
      ensures r.Started? ==>
                var ch := old(challenges)[id];
                && fresh(r.d) && duels == old(duels) + {r.d}
                && r.d.a == ch.from && r.d.b == ch.to && r.d.ranked == ch.ranked
                && (ch.ranked ==> r.d.shown == Some(shown[id]))
                && challenges == NotNaming(NotNaming(old(challenges), ch.from), ch.to)
    {
      hide Elo.IsPower, Elo.Stakes, SavedOk, StakesOk, DuelsOk, ChallengesOk, PromisesOk;
      late := id in challenges && challenges[id].expires <= now;
      if !(c in players && id in challenges && challenges[id].to == players[c]) {
        return NotYours, late;
      }
      ghost var before := challenges;
      var p, ch := players[c], challenges[id];
      Terms(id);
      challenges := challenges - {id};
      Fewer(before, challenges);
      if !accept {
        r := Declined;
      } else {
        var busy := p.duel != null || ch.from.duel != null;
        if busy {
          r := WasBusy;
        } else {
          ghost var promised := if ch.ranked then Some(shown[id]) else None;
          var d := StartDuel(ch.from, p, ch.ranked, promised);
          AlsoNotNaming(before, id, ch.from, ch.to);
          r := Started(d);
        }
      }
    }

    lemma Terms(id: nat)
      requires Valid() && id in challenges
      ensures var ch := challenges[id];
              && Present(ch.from) && Present(ch.to) && ch.from != ch.to && ch.from.duel == null && ch.to.duel == null
              && (ch.ranked ==> id in shown && shown[id] == Elo.Stakes(pow, ch.to.rating, ch.from.rating))
    {
      hide Elo.IsPower, Elo.Stakes, SavedOk, StakesOk, DuelsOk;
    }

    lemma AlsoNotNaming(pending: map<nat, PendingChallenge>, id: nat, a: Player, b: Player)
      requires id in pending && pending[id].from == a
      ensures NotNaming(NotNaming(pending - {id}, a), b) == NotNaming(NotNaming(pending, a), b)
    {
    }

    method StartDuel(a: Player, b: Player, isRanked: bool, ghost promised: Option<Elo.Stake>) returns (d: Duel)
      requires Valid() && Present(a) && Present(b) && a != b && a.duel == null && b.duel == null
      requires isRanked ==> promised == Some(Elo.Stakes(pow, b.rating, a.rating))
      modifies this`challenges, this`duels, this`started, a`duel, b`duel
      ensures Valid() && fresh(d) && duels == old(duels) + {d}
      ensures d.a == a && d.b == b && d.ranked == isRanked && d.shown == promised
      ensures challenges == NotNaming(NotNaming(old(challenges), a), b)
    {
      hide Elo.IsPower, Elo.Stakes, SavedOk, StakesOk, DuelsOk, ChallengesOk, PromisesOk;
      ghost var before := challenges;
      CancelChallenges(a);
      CancelChallenges(b);
      Fewer(before, challenges);
      d := new Duel(a, b, isRanked, promised);
      Begin(d);
    }

    method Begin(d: Duel)
      requires Valid() && Present(d.a) && Present(d.b) && d.a != d.b && d.a.duel == null && d.b.duel == null && d !in started
      requires d.ranked ==> d.shown == Some(Elo.Stakes(pow, d.b.rating, d.a.rating))
      requires forall id | id in challenges :: !challenges[id].Names(d.a) && !challenges[id].Names(d.b)
      modifies this`duels, this`started, d.a`duel, d.b`duel
      ensures Valid() && duels == old(duels) + {d}
    {
      hide Elo.IsPower, Elo.Stakes, Elo.Sound, PromisesOk;
      d.a.duel, d.b.duel := d, d;
      duels := duels + {d};
      started := started + {d};
    }

    // ----- Ends

    /** Changes both players' elo for a finished ranked duel, and hands it off; giving
        up is as bad a loss as there is. */
    method SettleRanked(d: Duel, winner: Option<Player>, reason: DuelTurns.EndReason, how: Played)
      requires Elo.IsPower(pow) && d.a != d.b && Elo.Sound(d.a.rating) && Elo.Sound(d.b.rating)
      requires winner.Some? ==> d.Has(winner.value)
      modifies this`saved, d.a`rating, d.b`rating
      ensures var r := Elo.Settle(pow, old(d.a.rating), old(d.b.rating), OutcomeOf(d, winner), MarginOf(d, winner, reason, how));
              && d.a.rating == r.a && d.b.rating == r.b
              && saved == old(saved) + [Match(d, OutcomeOf(d, winner), r)]
      ensures Elo.Sound(d.a.rating) && Elo.Sound(d.b.rating)
      ensures winner.Some? ==>
                Elo.WithinStakes(Elo.Stakes(pow, old(d.b.rating), old(d.a.rating)), winner.value == d.b,
                                 d.b.rating.elo - old(d.b.rating.elo))
      ensures winner.Some? ==>
                ByReason(d, winner.value, Elo.Stakes(pow, old(d.b.rating), old(d.a.rating)),
                         d.b.rating.elo - old(d.b.rating.elo), reason, how)
      ensures d.shown == Some(Elo.Stakes(pow, old(d.b.rating), old(d.a.rating))) ==> Kept(saved[|saved| - 1])
    {
      hide Elo.IsPower, Elo.Stakes, Elo.Sound, Elo.Settle, Elo.WithinStakes, Elo.AtEnd, Elo.Clearest, Elo.Closest, MarginOf, CloseSolve, ClearSolve;
      var outcome, margin := OutcomeOf(d, winner), MarginOf(d, winner, reason, how);
      Elo.SettleSound(pow, d.a.rating, d.b.rating, outcome, margin);
      if winner.Some? {
        Elo.SettleWithinStakes(pow, d.a.rating, d.b.rating, outcome, margin);
        MarginEnds(d, winner.value, reason, how);
        if Elo.Clearest(margin) {
          Elo.StakesAttained(pow, d.a.rating, d.b.rating, outcome, margin, true);
        }
        if Elo.Closest(margin) {
          Elo.StakesAttained(pow, d.a.rating, d.b.rating, outcome, margin, false);
        }
      }
      var result := Elo.Settle(pow, d.a.rating, d.b.rating, outcome, margin);
      d.a.rating := result.a;
      d.b.rating := result.b;
      saved := saved + [Match(d, outcome, result)];
    }

    /** Neither player is in a duel afterwards. A decided ranked duel moves the
        challenged player's elo by an amount inside what the challenge promised. */
    method EndDuel(d: Duel, winner: Option<Player>, reason: DuelTurns.EndReason, how: Played)
      requires Valid() && d in duels && (winner.Some? ==> d.Has(winner.value))
      modifies this`duels, this`saved, d.a, d.b
      ensures Valid() && duels == old(duels) - {d}
      ensures d.a.duel == null && d.b.duel == null
      ensures !d.ranked ==> saved == old(saved) && d.a.rating == old(d.a.rating) && d.b.rating == old(d.b.rating)
      ensures d.ranked ==>
                var r := Elo.Settle(pow, old(d.a.rating), old(d.b.rating), OutcomeOf(d, winner), MarginOf(d, winner, reason, how));
                && d.a.rating == r.a && d.b.rating == r.b
                && saved == old(saved) + [Match(d, OutcomeOf(d, winner), r)]
      ensures d.ranked && winner.Some? ==>
                && d.shown.Some?
                && Elo.WithinStakes(d.shown.value, winner.value == d.b, d.b.rating.elo - old(d.b.rating.elo))
                && ByReason(d, winner.value, d.shown.value, d.b.rating.elo - old(d.b.rating.elo), reason, how)
    {
      hide Elo.IsPower, Elo.Stakes, Elo.Sound, Elo.Settle, Elo.WithinStakes, ByReason, SavedOk, StakesOk, PromisesOk, DuelsOk, ChallengesOk;
      Apart(d);
      if d.ranked {
        Conclude(d, winner, reason, how);
      } else {
        SavedAtEnd(duels, started, saved, d, Match(d, Elo.Draw, Elo.Settle(pow, d.a.rating, d.b.rating, Elo.Draw, Elo.Margin(0, 0.0, 0, false, 0.0, false))));
        FewerStakes(d);
      }
      Retire(d);
    }

    /** Settles a ranked duel that is about to go: no promise made to anybody else changes. */
    method Conclude(d: Duel, winner: Option<Player>, reason: DuelTurns.EndReason, how: Played)
      requires Valid() && d in duels && d.ranked && (winner.Some? ==> d.Has(winner.value))
      modifies this`saved, d.a`rating, d.b`rating
      ensures PromisesOk(challenges, shown) && StakesOk(duels - {d}) && SavedOk(duels - {d}, started, saved)
      ensures var r := Elo.Settle(pow, old(d.a.rating), old(d.b.rating), OutcomeOf(d, winner), MarginOf(d, winner, reason, how));
              && d.a.rating == r.a && d.b.rating == r.b
              && saved == old(saved) + [Match(d, OutcomeOf(d, winner), r)]
      ensures winner.Some? ==>
                && d.shown.Some?
                && Elo.WithinStakes(d.shown.value, winner.value == d.b, d.b.rating.elo - old(d.b.rating.elo))
                && ByReason(d, winner.value, d.shown.value, d.b.rating.elo - old(d.b.rating.elo), reason, how)
    {
      hide Elo.IsPower, Elo.Stakes, Elo.Sound, Elo.Settle, Elo.WithinStakes, ByReason, SavedOk, DuelsOk, ChallengesOk, GaveUp, OutcomeOf, Kept;
      Apart(d);
      ghost var r := Elo.Settle(pow, d.a.rating, d.b.rating, OutcomeOf(d, winner), MarginOf(d, winner, reason, how));
      ghost var before := saved;
      SettleRanked(d, winner, reason, how);
      SavedAtEnd(duels, started, before, d, Match(d, OutcomeOf(d, winner), r));
    }

    lemma FewerStakes(d: Duel)
      requires Elo.IsPower(pow) && StakesOk(duels)
      ensures StakesOk(duels - {d})
    {
      hide Elo.IsPower, Elo.Stakes, Elo.Sound;
    }

    method Retire(d: Duel)
      requires DuelsOk() && ChallengesOk(challenges) && d in duels
      modifies this`duels, d.a`duel, d.b`duel
      ensures DuelsOk() && ChallengesOk(challenges) && duels == old(duels) - {d}
      ensures d.a.duel == null && d.b.duel == null
    {
      d.a.duel, d.b.duel := null, null;
      duels := duels - {d};
    }

    /** Nothing else in the world concerns the players of a duel. */
    lemma Apart(d: Duel)
      requires Valid() && d in duels
      ensures Present(d.a) && Present(d.b) && d.a != d.b && Elo.Sound(d.a.rating) && Elo.Sound(d.b.rating)
      ensures d.ranked ==> d.shown == Some(Elo.Stakes(pow, d.b.rating, d.a.rating))
      ensures forall e | e in duels && e != d :: !e.Has(d.a) && !e.Has(d.b)
      ensures forall id | id in challenges :: !challenges[id].Names(d.a) && !challenges[id].Names(d.b)
    {
      hide Elo.IsPower, Elo.Stakes, Elo.Sound;
    }

    /** p's duel d is over and lost: the other side won it by the largest margin, and if it
        was ranked both ratings are what that makes them, and it was handed off. */
    twostate predicate Lost(d: Duel, p: Player, how: Played)
      requires Elo.IsPower(pow)
      reads this`duels, this`saved, d.a`rating, d.b`rating
    {
      && duels == old(duels) - {d}
      && var outcome := OutcomeOf(d, Some(d.Other(p)));
         var r := Elo.Settle(pow, old(d.a.rating), old(d.b.rating), outcome, MarginOf(d, Some(d.Other(p)), DuelTurns.Forfeited, how));
         if d.ranked then
           && d.a.rating == r.a && d.b.rating == r.b && saved == old(saved) + [Match(d, outcome, r)]
           && d.shown.Some?
           && d.b.rating.elo - old(d.b.rating.elo) == (if p == d.b then d.shown.value.loseMax else d.shown.value.winMax)
         else d.a.rating == old(d.a.rating) && d.b.rating == old(d.b.rating) && saved == old(saved)
    }

    /** A player gives up: the other one wins. */
    method ForfeitDuel(c: Client, how: Played)
      requires Valid()
      modifies this`duels, this`saved, players.Values
      ensures Valid() && players == old(players)
      ensures c in players ==> players[c].duel == null
      ensures if c in players && old(players[c].duel) != null then Lost(old(players[c].duel), players[c], how)
              else duels == old(duels) && saved == old(saved)
    {
      hide Elo.IsPower, Elo.Stakes, Elo.Sound, Elo.Settle, SavedOk, StakesOk, PromisesOk, ChallengesOk, OutcomeOf;
      if c in players && players[c].duel != null {
        var d := players[c].duel;
        EndDuel(d, Some(d.Other(players[c])), DuelTurns.Forfeited, how);
      }
    }

    // ----- Coming and going

    /** A connection joins once. */
    method Join(c: Client, rating: Elo.Rating)
      requires Valid() && c !in players && Elo.Sound(rating)
      modifies this`players
      ensures Valid() && players.Keys == old(players).Keys + {c}
      ensures forall d | d in old(players) :: players[d] == old(players)[d]
      ensures fresh(players[c]) && players[c].rating == rating && players[c].duel == null
    {
      hide Elo.IsPower, Elo.Stakes, Elo.Sound, SavedOk;
      var p := new Player(c, rating);
      players := players[c := p];
    }

    /** A leaving player loses their duel, and their challenges are off. */
    method LeaveDuels(p: Player, how: Played)
      requires Valid() && Present(p)
      modifies this`duels, this`saved, this`challenges, players.Values
      ensures Valid() && p.duel == null && players == old(players)
      ensures challenges == NotNaming(old(challenges), p)
      ensures if old(p.duel) != null then Lost(old(p.duel), p, how) else duels == old(duels) && saved == old(saved)
    {
      hide Elo.IsPower, Elo.Stakes, Elo.Sound, Elo.Settle, SavedOk, StakesOk, PromisesOk, ChallengesOk, OutcomeOf;
      if p.duel != null {
        var d := p.duel;
        EndDuel(d, Some(d.Other(p)), DuelTurns.Disconnected, how);
      }
      ghost var before := challenges;
      CancelChallenges(p);
      Fewer(before, challenges);
    }

    method Leave(c: Client, how: Played)
      requires Valid()
      modifies this`duels, this`saved, this`challenges, this`players, players.Values
      ensures Valid() && players == old(players) - {c}
      ensures if c in old(players) && old(players[c].duel) != null then Lost(old(players[c].duel), old(players[c]), how)
              else duels == old(duels) && saved == old(saved)
      ensures challenges == if c in old(players) then NotNaming(old(challenges), old(players[c])) else old(challenges)
    {
      assert Elo.IsPower(pow);
      hide Valid, Elo.IsPower, Elo.Settle;
      if c in players {
        var p := players[c];
        TheirOwn(c);
        LeaveDuels(p, how);
        Drop(p);
      } else {
        assert players - {c} == players;
      }
    }

    lemma TheirOwn(c: Client)
      requires Valid() && c in players
      ensures Present(players[c]) && players[c].client == c
    {
    }

    method Drop(p: Player)
      requires Valid() && Present(p) && p.duel == null && forall id | id in challenges :: !challenges[id].Names(p)
      modifies this`players
      ensures Valid() && players == old(players) - {p.client}
    {
      hide Elo.IsPower, Elo.Stakes, Elo.Sound, SavedOk;
      players := players - {p.client};
    }
  }

  /** Such a challenge is pending. */
  predicate Waiting(challenges: map<nat, PendingChallenge>, from: Player, to: Player, ranked: bool) {
    exists id :: id in challenges && challenges[id].from == from && challenges[id].to == to && challenges[id].ranked == ranked
  }

  /** A challenge stands through every sweep of the next thirty seconds, and no sweep after. */
  lemma StandsThirtySeconds(challenges: map<nat, PendingChallenge>, id: nat, p: Player, t: Player, ranked: bool, posted: Time, now: Time)
    requires id in challenges && challenges[id] == PendingChallenge(p, t, posted + CHALLENGE_TIMEOUT, ranked)
    ensures id in Live(challenges, now) <==> now - posted < 30000
  {
  }

  function OutcomeOf(d: Duel, winner: Option<Player>): Elo.Outcome {
    if winner.None? then Elo.Draw else if winner.value == d.a then Elo.AWins else Elo.BWins
  }

  /** How a duel stood when it ended: both sides, and how long it took. */
  datatype Played = Played(a: Side, b: Side, seconds: real)

  function MarginOf(d: Duel, winner: Option<Player>, reason: DuelTurns.EndReason, how: Played): Elo.Margin {
    if winner.None? then Elo.Margin(0, 0.0, 0, false, 0.0, false)
    else
      var (w, l) := if winner.value == d.a then (how.a, how.b) else (how.b, how.a);
      Elo.Margin(|w.guesses|, how.seconds, |l.guesses|, l.Out(), l.best, GaveUp(reason))
  }

  /** A late solve against somebody with rows left, fewer guesses, and one as good as right. */
  predicate CloseSolve(w: Side, l: Side, seconds: real) {
    l.rows > |l.guesses| && |l.guesses| < |w.guesses| && seconds >= 180.0 && l.best >= 1.0
  }

  /** An early solve against somebody out of rows with nothing right. */
  predicate ClearSolve(w: Side, l: Side, seconds: real) {
    !l.solved && l.rows <= |l.guesses| && seconds <= 0.0 && l.best <= 0.0
  }

  /** Giving up, by word or by leaving, moves the challenged player as far as was promised
      at most, and so does the clearest solve; the closest, as little as was promised. */
  predicate ByReason(d: Duel, winner: Player, stake: Elo.Stake, delta: int, reason: DuelTurns.EndReason, how: Played) {
    var (w, l) := if winner == d.b then (how.b, how.a) else (how.a, how.b);
    && (reason == DuelTurns.Forfeited || reason == DuelTurns.Disconnected || ClearSolve(w, l, how.seconds) ==>
          Elo.AtEnd(stake, winner == d.b, delta, true))
    && (reason == DuelTurns.Solved && CloseSolve(w, l, how.seconds) ==> Elo.AtEnd(stake, winner == d.b, delta, false))
  }

  /** The margin is as clear, or as close, as the ending was. */
  lemma MarginEnds(d: Duel, winner: Player, reason: DuelTurns.EndReason, how: Played)
    requires d.Has(winner) && d.a != d.b
    ensures var m := MarginOf(d, Some(winner), reason, how);
            var (w, l) := if winner == d.b then (how.b, how.a) else (how.a, how.b);
            && (reason == DuelTurns.Forfeited || reason == DuelTurns.Disconnected || ClearSolve(w, l, how.seconds) ==> Elo.Clearest(m))
            && (reason == DuelTurns.Solved && CloseSolve(w, l, how.seconds) ==> Elo.Closest(m))
  {
  }

  predicate GaveUp(reason: DuelTurns.EndReason) {
    reason.Forfeited? || reason.Disconnected?
  }

  function NotFrom(challenges: map<nat, PendingChallenge>, p: Player): map<nat, PendingChallenge> {
    map id | id in challenges && challenges[id].from != p :: challenges[id]
  }

  /** A challenge accepted the moment it has expired: the next sweep would have dropped it. */
  method AcceptedLate(pow: real -> real) returns (w: World, id: nat, r: Response, ghost late: bool)
    requires Elo.IsPower(pow)
    ensures w.Valid() && r.Started? && late
  {
    hide SavedOk, Elo.Stakes, Elo.IsPower, World.StakesOk, World.PromisesOk, World.ChallengesOk, World.DuelsOk;
    w := new World(pow, 0);
    w.Join(1, Elo.NewRating());
    w.Join(2, Elo.NewRating());
    var sent := w.Challenge(1, 2, true, true, 0);
    id := sent.id;
    r, late := w.RespondDuel(2, id, true, CHALLENGE_TIMEOUT);
  }
}
