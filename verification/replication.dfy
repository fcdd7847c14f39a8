/** The shared world's entities, and what its players are told about them
(internal/game/world.go, internal/game/replication.go). A message sent is a message
applied: messages reach a client in the order they are sent. */
module Replication {
  import opened Ranges
  import opened Grids
  import opened WorldUpdates

  class Player {
    const client: Client
    const ent: Entity
    /** The ids in the client's view, each with the tick that last confirmed it. */
    var known: map<nat, nat>

    constructor (client: Client, ent: Entity)
      ensures this.client == client && this.ent == ent && known == map[]
    {
      this.client, this.ent, known := client, ent, map[];
    }
  }

  function Shown(e: Entity): Other
    reads e`pos, e`elo
  {
    Other(e.look, e.pos, e.elo)
  }

  /** By brute force: the ids of everything else in the 3x3 cells around an entity. */
  function Sight(snap: View, self: nat): set<nat>
    requires self in snap
  {
    set id | id in snap && id != self && Near(CellOf(snap[self].pos), CellOf(snap[id].pos))
  }

  function View3x3(snap: View, self: nat): View
    requires self in snap
  {
    map id | id in Sight(snap, self) :: snap[id]
  }

  /** In pixels: everything else within 1024 on both axes is in view, as it is; nothing 2048 or
      more away on either axis is, nor the player itself. */
  lemma ViewReaches(snap: View, self: nat, id: nat)
    requires self in snap && id in snap
    ensures var here, there := snap[self].pos, snap[id].pos;
            && (id != self && Gap(here.x, there.x) <= 1024 && Gap(here.y, there.y) <= 1024 ==> id in View3x3(snap, self))
            && (id in View3x3(snap, self) ==>
                  id != self && Gap(here.x, there.x) < 2048 && Gap(here.y, there.y) < 2048 && View3x3(snap, self)[id] == snap[id])
  {
    Reach(snap[self].pos, snap[id].pos);
  }

  /** What the server remembers about a client is what the client has, and the client is
      wrong only about what is flagged. */
  ghost predicate InSync(view: View, known: map<nat, nat>, snap: View, moved: set<nat>, changed: set<nat>, nextID: nat, tick: nat) {
    && view.Keys == known.Keys
    && (forall id | id in known :: id <= nextID && known[id] <= tick)
    && Fresh(view, snap, moved, changed)
  }

  lemma SyncWithNew(view: View, known: map<nat, nat>, snap: View, moved: set<nat>, changed: set<nat>, nextID: nat, tick: nat, o: Other)
    requires InSync(view, known, snap, moved, changed, nextID, tick)
    ensures InSync(view, known, snap[nextID + 1 := o], moved, changed, nextID + 1, tick)
  {
  }

  lemma SyncWithout(view: View, known: map<nat, nat>, snap: View, moved: set<nat>, changed: set<nat>, nextID: nat, tick: nat, id: nat)
    requires InSync(view, known, snap, moved, changed, nextID, tick)
    ensures InSync(view, known, snap - {id}, moved - {id}, changed - {id}, nextID, tick)
  {
  }

  lemma SyncMoved(view: View, known: map<nat, nat>, snap: View, moved: set<nat>, changed: set<nat>, nextID: nat, tick: nat, id: nat, pos: Vec)
    requires InSync(view, known, snap, moved, changed, nextID, tick) && id in snap
    ensures InSync(view, known, snap[id := snap[id].(pos := pos)], moved + {id}, changed, nextID, tick)
  {
  }

  lemma SyncRated(view: View, known: map<nat, nat>, snap: View, moved: set<nat>, changed: set<nat>, nextID: nat, tick: nat, id: nat, elo: int)
    requires InSync(view, known, snap, moved, changed, nextID, tick) && id in snap
    ensures InSync(view, known, snap[id := snap[id].(elo := elo)], moved, changed + {id}, nextID, tick)
  {
  }

  lemma SyncAtStart(snap: View, moved: set<nat>, changed: set<nat>, nextID: nat, tick: nat)
    ensures InSync(map[], map[], snap, moved, changed, nextID, tick)
  {
  }

  lemma NothingApplied(view: View)
    ensures Applied(view, WorldUpdate([], [], [], [])) == view
  {
  }

  function Stamped(known: map<nat, nat>, sight: set<nat>, tick: nat): map<nat, nat> {
    map id | id in known.Keys + sight :: if id in sight then tick else known[id]
  }

  lemma StampedOneMore(known: map<nat, nat>, sight: set<nat>, tick: nat, id: nat)
    ensures Stamped(known, sight, tick)[id := tick] == Stamped(known, sight + {id}, tick)
    ensures id !in sight ==> (id in Stamped(known, sight, tick) <==> id in known)
  {
  }

  lemma StampedNone(known: map<nat, nat>, tick: nat)
    ensures Stamped(known, {}, tick) == known
  {
  }

  lemma SameUpdateFor(upd: WorldUpdate, despawn: seq<nat>, sight: set<nat>, known: set<nat>, snap: View, moved: set<nat>, changed: set<nat>)
    requires UpdateFor(upd, sight, known, snap, moved, changed)
    ensures UpdateFor(upd.(despawn := despawn), sight, known, snap, moved, changed)
  {
  }

  /** What stays known: what was seen this tick. */
  function Current(known: map<nat, nat>, tick: nat): map<nat, nat> {
    map id | id in known && known[id] == tick :: tick
  }

  /** What is sent in a tick makes the client's view exact. */
  lemma DeltaIsExact(view: View, known: map<nat, nat>, upd: WorldUpdate, despawn: seq<nat>, snap: View, moved: set<nat>, changed: set<nat>, self: nat, nextID: nat, tick: nat)
    requires tick > 0 && InSync(view, known, snap, moved, changed, nextID, tick - 1) && self in snap
    requires UpdateFor(upd, Sight(snap, self), known.Keys, snap, moved, changed)
    requires var stamped := Stamped(known, Sight(snap, self), tick);
             forall id: nat :: id in despawn <==> id in stamped && stamped[id] != tick
    ensures Applied(view, upd.(despawn := despawn)) == View3x3(snap, self)
  {
    SameUpdateFor(upd, despawn, Sight(snap, self), known.Keys, snap, moved, changed);
    hide UpdateFor, Applied;
    AppliedIsSight(view, upd.(despawn := despawn), Sight(snap, self), snap, moved, changed);
  }

  /** ... and leaves nothing flagged for it. */
  lemma ExactInSync(known: map<nat, nat>, snap: View, self: nat, nextID: nat, tick: nat)
    requires tick > 0 && self in snap && (forall id | id in snap :: id <= nextID) && forall id | id in known :: known[id] < tick
    ensures InSync(View3x3(snap, self), Current(Stamped(known, Sight(snap, self), tick), tick), snap, {}, {}, nextID, tick)
  {
  }

  lemma KnownBefore(view: View, known: map<nat, nat>, snap: View, moved: set<nat>, changed: set<nat>, nextID: nat, tick: nat)
    requires tick > 0 && InSync(view, known, snap, moved, changed, nextID, tick - 1)
    ensures forall id | id in known :: known[id] < tick
  {
  }

  class World {
    var entities: map<nat, Entity>
    var players: map<Client, Player>
    const grid: Grid
    var nextID: nat
    var tick: nat
    var moved: seq<Entity>
    var eloChanged: seq<Entity>

    function Snapshot(): View
      reads this`entities, entities.Values`pos, entities.Values`elo
    {
      map id | id in entities :: Shown(entities[id])
    }

    function MovedIds(): set<nat>
      reads this`entities, entities.Values`moved
    {
      set id | id in entities && entities[id].moved
    }

    function EloIds(): set<nat>
      reads this`entities, entities.Values`eloChanged
    {
      set id | id in entities && entities[id].eloChanged
    }

    /** Entities have their own ids, none to be given out again; the grid holds them
        where they are; whoever is flagged is listed. */
    ghost predicate EntitiesOk()
      reads this`entities, this`nextID, this`moved, this`eloChanged, grid, entities.Values
    {
      && (forall id | id in entities :: entities[id].id == id && id <= nextID)
      && grid.inside == entities && grid.Valid() && grid.Placed()
      && (forall id | id in entities ::
            (entities[id].moved ==> entities[id] in moved) && (entities[id].eloChanged ==> entities[id] in eloChanged))
    }

    /** Each player is in the world, as themselves. */
    ghost predicate PlayersOk()
      reads this`entities, this`players
    {
      && (forall c | c in players ::
            players[c].client == c && players[c].ent.id in entities && entities[players[c].ent.id] == players[c].ent)
      && (forall c, d | c in players && d in players && c != d :: players[c].ent != players[d].ent)
    }

    /** Every client is in sync with the entities. */
    ghost predicate Synced(snap: View, moved: set<nat>, changed: set<nat>, nextID: nat, tick: nat)
      reads this`players, players.Keys, players.Values`known
    {
      forall c | c in players :: c.Replayed() && InSync(c.others, players[c].known, snap, moved, changed, nextID, tick)
    }

    ghost predicate Valid()
      reads this, grid, entities.Values, players.Keys, players.Values
    {
      EntitiesOk() && PlayersOk() && Synced(Snapshot(), MovedIds(), EloIds(), nextID, tick)
    }

    /** The updates sent since the client's welcome add up to what is around its player, as
        it is, and so does its view. */
    ghost predicate Exact(c: Client)
      requires c in players && PlayersOk()
      reads this, c, entities.Values
    {
      c.others == Folded(c.updates) == View3x3(Snapshot(), players[c].ent.id)
    }

    constructor ()
      ensures Valid() && fresh(grid) && entities == map[] && players == map[]
    {
      entities, players, nextID, tick, moved, eloChanged := map[], map[], 0, 0, [], [];
      grid := new Grid();
    }

    method NewEntity(look: Look, pos: Vec, elo: int) returns (e: Entity)
      requires EntitiesOk()
      modifies this`entities, this`nextID, grid
      ensures EntitiesOk() && fresh(e) && e.id == nextID == old(nextID) + 1 && e.id !in old(entities)
      ensures entities == old(entities)[e.id := e]
      ensures Snapshot() == old(Snapshot())[e.id := Other(look, pos, elo)]
      ensures MovedIds() == old(MovedIds()) && EloIds() == old(EloIds())
    {
      hide Grid.Valid, Grid.Placed, Grid.PlacedBut;
      nextID := nextID + 1;
      e := new Entity(nextID, look, pos, elo);
      entities := entities[e.id := e];
      grid.Insert(e);
      assert Snapshot() == old(Snapshot())[e.id := Shown(e)];
    }

    method RemoveEntity(e: Entity)
      requires EntitiesOk() && e.id in entities && entities[e.id] == e
      modifies this`entities, grid
      ensures EntitiesOk() && entities == old(entities) - {e.id}
      ensures Snapshot() == old(Snapshot()) - {e.id}
      ensures MovedIds() == old(MovedIds()) - {e.id} && EloIds() == old(EloIds()) - {e.id}
    {
      hide Grid.Valid, Grid.Placed, Grid.PlacedBut;
      assert forall id | id in entities && id != e.id :: entities[id] != e;
      grid.Remove(e);
      entities := entities - {e.id};
      assert Snapshot() == old(Snapshot()) - {e.id};
    }

    lemma OthersPlaced(e: Entity)
      requires grid.Placed()
      ensures grid.PlacedBut(e)
    {
    }

    /** An entity goes to pos. */
    method MoveEntity(e: Entity, pos: Vec)
      requires EntitiesOk() && e.id in entities && entities[e.id] == e
      modifies this`moved, grid, e
      ensures EntitiesOk()
      ensures Snapshot() == old(Snapshot())[e.id := old(Shown(e)).(pos := pos)] && e.pos == pos
      ensures MovedIds() == old(MovedIds()) + {e.id} && EloIds() == old(EloIds())
    {
      hide EntitiesOk, Snapshot, MovedIds, EloIds;
      Relocate(e, pos);
      FlagMoved(e);
    }

    method Relocate(e: Entity, pos: Vec)
      requires EntitiesOk() && e.id in entities && entities[e.id] == e
      modifies grid, e`pos, e`cell
      ensures EntitiesOk()
      ensures Snapshot() == old(Snapshot())[e.id := old(Shown(e)).(pos := pos)] && e.pos == pos
    {
      hide Grid.Valid, Grid.Placed, Grid.PlacedBut;
      assert forall id | id in entities && id != e.id :: entities[id] != e;
      OthersPlaced(e);
      e.pos := pos;
      assert grid.PlacedBut(e) && grid.Valid();
      grid.Moved(e);
      assert grid.Placed() && grid.Valid();
      assert Snapshot() == old(Snapshot())[e.id := Shown(e)];
    }

    method FlagMoved(e: Entity)
      requires EntitiesOk() && e.id in entities && entities[e.id] == e
      modifies this`moved, e`moved
      ensures EntitiesOk()
      ensures MovedIds() == old(MovedIds()) + {e.id}
    {
      hide Grid.Valid, Grid.Placed;
      assert forall id | id in entities && id != e.id :: entities[id] != e;
      if !e.moved {
        e.moved := true;
        moved := moved + [e];
      }
    }

    method RateEntity(e: Entity, elo: int)
      requires EntitiesOk() && e.id in entities && entities[e.id] == e
      modifies this`eloChanged, e`elo, e`eloChanged
      ensures EntitiesOk()
      ensures Snapshot() == old(Snapshot())[e.id := old(Shown(e)).(elo := elo)] && e.elo == elo
      ensures MovedIds() == old(MovedIds()) && EloIds() == old(EloIds()) + {e.id}
    {
      hide Grid.Valid, Grid.Placed, Grid.PlacedBut;
      assert forall id | id in entities && id != e.id :: entities[id] != e;
      e.elo := elo;
      if !e.eloChanged {
        e.eloChanged := true;
        eloChanged := eloChanged + [e];
      }
      assert Snapshot() == old(Snapshot())[e.id := Shown(e)];
    }

    // ----- Commands

    function OwnEntity(c: Client): set<Entity>
      reads this`players
    {
      if c in players then {players[c].ent} else {}
    }

    method Join(c: Client, look: Look, pos: Vec, elo: int)
      requires Valid()
      modifies this`entities, this`players, this`nextID, grid, c
      ensures Valid() && c in players && c.others == map[]
      ensures forall d | d in old(players) && d != c :: d in players && players[d] == old(players)[d]
    {
      hide InSync, EntitiesOk, Snapshot, MovedIds, EloIds, Synced;
      SyncedWithNew(Snapshot(), MovedIds(), EloIds(), Other(look, pos, elo));
      var e := NewEntity(look, pos, elo);
      Admit(c, e);
    }

    lemma SyncedWithNew(snap: View, moved: set<nat>, changed: set<nat>, o: Other)
      requires Synced(snap, moved, changed, nextID, tick)
      ensures Synced(snap[nextID + 1 := o], moved, changed, nextID + 1, tick)
    {
      forall c | c in players ensures c.Replayed() && InSync(c.others, players[c].known, snap[nextID + 1 := o], moved, changed, nextID + 1, tick) {
        SyncWithNew(c.others, players[c].known, snap, moved, changed, nextID, tick, o);
      }
    }

    /** c's player is the new entity e, and c is told it's welcome. */
    method Admit(c: Client, e: Entity)
      requires Valid() && e.id in entities && entities[e.id] == e && forall d | d in players :: players[d].ent != e
      modifies this`players, c
      ensures Valid() && c in players && c.others == map[]
      ensures forall d | d in old(players) && d != c :: d in players && players[d] == old(players)[d]
    {
      hide InSync, EntitiesOk, Snapshot, MovedIds, EloIds, Client.Replayed;
      var p := new Player(c, e);
      players := players[c := p];
      c.Welcome();
      ghost var snap, moved', changed := Snapshot(), MovedIds(), EloIds();
      SyncAtStart(snap, moved', changed, nextID, tick);
      assert Synced(snap, moved', changed, nextID, tick);
    }

    /** Views still hold the player until the next Step. */
    method Leave(c: Client)
      requires Valid()
      modifies this`entities, this`players, grid
      ensures Valid() && players == old(players) - {c}
    {
      hide InSync, EntitiesOk, Snapshot, MovedIds, EloIds, Synced;
      if c in players {
        var e := players[c].ent;
        Drop(c);
        SyncedWithout(Snapshot(), MovedIds(), EloIds(), e.id);
        RemoveEntity(e);
      } else {
        assert players == players - {c};
      }
    }

    method Drop(c: Client)
      requires Valid() && c in players
      modifies this`players
      ensures Valid() && players == old(players) - {c}
      ensures forall d | d in players :: players[d].ent.id != old(players)[c].ent.id
    {
      hide InSync, EntitiesOk, Snapshot, MovedIds, EloIds;
      players := players - {c};
    }

    lemma SyncedWithout(snap: View, moved: set<nat>, changed: set<nat>, id: nat)
      requires Synced(snap, moved, changed, nextID, tick)
      ensures Synced(snap - {id}, moved - {id}, changed - {id}, nextID, tick)
    {
      forall c | c in players ensures c.Replayed() && InSync(c.others, players[c].known, snap - {id}, moved - {id}, changed - {id}, nextID, tick) {
        SyncWithout(c.others, players[c].known, snap, moved, changed, nextID, tick, id);
      }
    }

    /** An accepted move (internal/game/movement.go:29-60). */
    method Move(c: Client, pos: Vec)
      requires Valid()
      modifies this`moved, grid, OwnEntity(c)
      ensures Valid() && (c in players ==> players[c].ent.pos == pos)
    {
      hide InSync, EntitiesOk, Snapshot, MovedIds, EloIds, Synced;
      if c in players {
        var e := players[c].ent;
        InSnapshot(e);
        SyncedMoved(Snapshot(), MovedIds(), EloIds(), e.id, pos);
        MoveEntity(e, pos);
      }
    }

    lemma InSnapshot(e: Entity)
      requires e.id in entities && entities[e.id] == e
      ensures e.id in Snapshot() && Snapshot()[e.id] == Shown(e)
    {
    }

    lemma SyncedMoved(snap: View, moved: set<nat>, changed: set<nat>, id: nat, pos: Vec)
      requires Synced(snap, moved, changed, nextID, tick) && id in snap
      ensures Synced(snap[id := snap[id].(pos := pos)], moved + {id}, changed, nextID, tick)
    {
      forall c | c in players
        ensures c.Replayed() && InSync(c.others, players[c].known, snap[id := snap[id].(pos := pos)], moved + {id}, changed, nextID, tick)
      {
        SyncMoved(c.others, players[c].known, snap, moved, changed, nextID, tick, id, pos);
      }
    }

    /** A player's rating changed. */
    method SetRating(c: Client, elo: int)
      requires Valid()
      modifies this`eloChanged, OwnEntity(c)
      ensures Valid() && (c in players ==> players[c].ent.elo == elo)
    {
      hide InSync, EntitiesOk, Snapshot, MovedIds, EloIds, Synced;
      if c in players {
        var e := players[c].ent;
        InSnapshot(e);
        SyncedRated(Snapshot(), MovedIds(), EloIds(), e.id, elo);
        RateEntity(e, elo);
      }
    }

    lemma SyncedRated(snap: View, moved: set<nat>, changed: set<nat>, id: nat, elo: int)
      requires Synced(snap, moved, changed, nextID, tick) && id in snap
      ensures Synced(snap[id := snap[id].(elo := elo)], moved, changed + {id}, nextID, tick)
    {
      forall c | c in players
        ensures c.Replayed() && InSync(c.others, players[c].known, snap[id := snap[id].(elo := elo)], moved, changed + {id}, nextID, tick)
      {
        SyncRated(c.others, players[c].known, snap, moved, changed, nextID, tick, id, elo);
      }
    }

    // ----- Ticks

    /** What p is told about the entities near them: each is stamped as seen this tick. */
    method LookAround(p: Player) returns (upd: WorldUpdate, ghost sight: set<nat>)
      requires EntitiesOk() && p.ent.id in entities && entities[p.ent.id] == p.ent
      modifies p`known
      ensures upd.despawn == [] && sight == Sight(Snapshot(), p.ent.id)
      ensures UpdateFor(upd, sight, old(p.known).Keys, Snapshot(), MovedIds(), EloIds())
      ensures p.known == Stamped(old(p.known), sight, tick)
    {
      hide UpdateFor, Grid.Valid, Grid.Placed, EntitiesOk, Snapshot, MovedIds, EloIds, Sight, CellOf, Stamped;
      StampedNone(p.known, tick);
      ghost var known, snap, moved', changed := p.known.Keys, Snapshot(), MovedIds(), EloIds();
      upd := WorldUpdate([], [], [], []);
      sight := {};
      GridOk();
      var near := grid.NearTo(p.ent.pos);
      UpdateForNone(known, snap, moved', changed);
      for i := 0 to |near|
        invariant sight == Ids(near[..i], p.ent)
        invariant upd.despawn == [] && p.known == Stamped(old(p.known), sight, tick)
        invariant UpdateFor(upd, sight, known, snap, moved', changed)
      {
        var e := near[i];
        assert e in near;
        OnList(near, i);
        StampedOneMore(old(p.known), sight, tick, e.id);
        if e != p.ent {
          UpdateForOneMore(upd, sight, known, snap, moved', changed, e.id);
          upd := Note(upd, e, p);
          p.known := p.known[e.id := tick];
          sight := sight + {e.id};
        }
        assert near[..i + 1] == near[..i] + [e];
      }
      assert near[..|near|] == near;
      SightFound(p.ent, near, sight);
    }

    lemma GridOk()
      requires EntitiesOk()
      ensures grid.Valid() && grid.Placed()
    {
    }

    /** Drops, and lists, the known ids without this tick's stamp. */
    method Forget(p: Player) returns (despawn: seq<nat>)
      modifies p`known
      ensures forall id: nat :: id in despawn <==> id in old(p.known) && old(p.known)[id] != tick
      ensures p.known == Current(old(p.known), tick)
    {
      despawn := [];
      var ids := InSomeOrder(p.known.Keys);
      ghost var known := p.known;
      for i := 0 to |ids|
        invariant forall id: nat :: id in despawn <==> id in ids[..i] && known[id] != tick
        invariant p.known == map id | id in known && id !in despawn :: known[id]
      {
        assert ids[i] in ids && ids[..i + 1] == ids[..i] + [ids[i]];
        assert ids[i] !in ids[..i];
        if p.known[ids[i]] != tick {
          despawn := despawn + [ids[i]];
          p.known := p.known - {ids[i]};
        }
      }
      assert ids[..|ids|] == ids;
    }

    lemma KnownIds(e: Entity)
      requires EntitiesOk() && e.id in entities && entities[e.id] == e
      ensures e.id in Snapshot() && forall id | id in Snapshot() :: id <= nextID
    {
    }

    /** Brings one client from Due to Told. */
    method ReplicateTo(c: Client, p: Player)
      requires c in players && players[c] == p && EntitiesOk() && PlayersOk() && tick > 0
      requires Due(c, p, Snapshot(), MovedIds(), EloIds())
      modifies p`known, c
      ensures Told(c, p, Snapshot())
    {
      hide EntitiesOk, Snapshot, MovedIds, EloIds, UpdateFor, Sight, Applied, Stamped, Current, InSync, View3x3;
      ghost var known, view := p.known, c.others;
      var upd, sight := LookAround(p);
      var despawn := Forget(p);
      KnownIds(p.ent);
      DeltaIsExact(view, known, upd, despawn, Snapshot(), MovedIds(), EloIds(), p.ent.id, nextID, tick);
      KnownBefore(view, known, Snapshot(), MovedIds(), EloIds(), nextID, tick);
      ExactInSync(known, Snapshot(), p.ent.id, nextID, tick);
      NothingApplied(view);
      upd := upd.(despawn := despawn);
      if upd != WorldUpdate([], [], [], []) {
        c.ApplyWorldUpdate(upd);
      }
    }

    /** Clears the flags. */
    method ClearMoved()
      requires EntitiesOk()
      modifies this`moved, (set e | e in moved)`moved
      ensures EntitiesOk() && MovedIds() == {}
    {
      hide Grid.Valid, Grid.Placed;
      for i := 0 to |moved|
        invariant moved == old(moved)
        invariant forall k | 0 <= k < i :: !moved[k].moved
        invariant forall id | id in entities && entities[id].moved :: entities[id] in moved
      {
        moved[i].moved := false;
      }
      moved := [];
    }

    method ClearEloChanged()
      requires EntitiesOk()
      modifies this`eloChanged, (set e | e in eloChanged)`eloChanged
      ensures EntitiesOk() && EloIds() == {}
    {
      hide Grid.Valid, Grid.Placed;
      for i := 0 to |eloChanged|
        invariant eloChanged == old(eloChanged)
        invariant forall k | 0 <= k < i :: !eloChanged[k].eloChanged
        invariant forall id | id in entities && entities[id].eloChanged :: entities[id] in eloChanged
      {
        eloChanged[i].eloChanged := false;
      }
      eloChanged := [];
    }

    /** A client that hasn't had this tick's update yet. */
    ghost predicate Due(c: Client, p: Player, snap: View, moved: set<nat>, changed: set<nat>)
      requires tick > 0
      reads this`nextID, this`tick, c, p`known
    {
      c.Replayed() && InSync(c.others, p.known, snap, moved, changed, nextID, tick - 1)
    }

    /** A client that has. */
    ghost predicate Told(c: Client, p: Player, snap: View)
      reads this`nextID, this`tick, c, p`known
    {
      && c.Replayed() && p.ent.id in snap && c.others == View3x3(snap, p.ent.id)
      && InSync(c.others, p.known, snap, {}, {}, nextID, tick)
    }

    lemma AllDue(order: seq<Client>)
      requires tick > 0 && Synced(Snapshot(), MovedIds(), EloIds(), nextID, tick - 1)
      requires forall c | c in order :: c in players
      ensures forall k | 0 <= k < |order| :: Due(order[k], players[order[k]], Snapshot(), MovedIds(), EloIds())
    {
    }

    lemma AllApart(order: seq<Client>)
      requires PlayersOk() && (forall c | c in order :: c in players)
      requires forall k, m | 0 <= k < m < |order| :: order[k] != order[m]
      ensures forall k, m | 0 <= k < |order| && 0 <= m < |order| && k != m ::
                order[k] != order[m] && players[order[k]] != players[order[m]]
    {
      forall k, m | 0 <= k < |order| && 0 <= m < |order| && k != m
        ensures order[k] != order[m] && players[order[k]] != players[order[m]]
      {
        assert order[k] in order && order[m] in order;
        assert order[if k < m then k else m] != order[if k < m then m else k];
      }
    }

    lemma AllTold(order: seq<Client>)
      requires PlayersOk() && forall c | c in players :: c in order
      requires forall c | c in order :: c in players && Told(c, players[c], Snapshot())
      ensures Synced(Snapshot(), {}, {}, nextID, tick)
      ensures forall c | c in players :: Exact(c)
    {
    }

    /** Every client is told what changed near its player since the last tick. */
    method SendUpdates()
      requires EntitiesOk() && PlayersOk() && tick > 0
      requires Synced(Snapshot(), MovedIds(), EloIds(), nextID, tick - 1)
      modifies players.Values`known, players.Keys
      ensures Synced(Snapshot(), {}, {}, nextID, tick)
      ensures forall c | c in players :: Exact(c)
    {
      hide EntitiesOk, Snapshot, MovedIds, EloIds, Due, Told, Synced, Exact, PlayersOk;
      var order := InSomeOrder(players.Keys);
      AllDue(order);
      AllApart(order);
      ghost var snap, moved', changed := Snapshot(), MovedIds(), EloIds();
      for i := 0 to |order|
        invariant forall k | 0 <= k < i :: Told(order[k], players[order[k]], snap)
        invariant forall k | i <= k < |order| :: Due(order[k], players[order[k]], snap, moved', changed)
      {
        assert order[i] in order;
        ReplicateTo(order[i], players[order[i]]);
      }
      AllTold(order);
    }

    /** ... and the flags start over. */
    method Replicate()
      requires EntitiesOk() && PlayersOk() && tick > 0
      requires Synced(Snapshot(), MovedIds(), EloIds(), nextID, tick - 1)
      modifies this`moved, this`eloChanged, players.Values`known, players.Keys
      modifies (set e | e in moved)`moved, (set e | e in eloChanged)`eloChanged
      ensures Valid() && Snapshot() == old(Snapshot())
      ensures forall c | c in players :: Exact(c)
    {
      hide EntitiesOk, Snapshot, MovedIds, EloIds, Synced, View3x3;
      SendUpdates();
      ClearMoved();
      ClearEloChanged();
    }

    /** One tick. Systems run first: what they change they change by the commands above. */
    method Step()
      requires Valid()
      modifies this`tick, this`moved, this`eloChanged, players.Values`known, players.Keys
      modifies (set e | e in moved)`moved, (set e | e in eloChanged)`eloChanged
      ensures Valid() && tick == old(tick) + 1 && Snapshot() == old(Snapshot())
      ensures forall c | c in players :: Exact(c)
    {
      hide EntitiesOk, Snapshot, MovedIds, EloIds, Synced, View3x3, PlayersOk;
      tick := tick + 1;
      Replicate();
    }

    /** What the entity at i on a list of different ones says about it. */
    lemma OnList(near: seq<Entity>, i: nat)
      requires EntitiesOk() && i < |near| && (forall e | e in near :: grid.Has(e))
      requires forall k, m | 0 <= k < m < |near| :: near[k] != near[m]
      ensures near[i].id in Snapshot() && Snapshot()[near[i].id] == Shown(near[i])
      ensures near[i].moved <==> near[i].id in MovedIds()
      ensures near[i].eloChanged <==> near[i].id in EloIds()
      ensures forall e | e in near[..i] :: e.id != near[i].id
    {
      hide Grid.Valid, Grid.Placed;
      assert near[i] in near;
      forall e | e in near[..i] ensures e.id != near[i].id {
        assert e in near;
      }
    }

    /** What p is told about e. */
    method Note(upd: WorldUpdate, e: Entity, p: Player) returns (r: WorldUpdate)
      ensures r == if e.id !in p.known then upd.(spawn := upd.spawn + [EntitySpawn(e.id, Shown(e))])
                   else upd.(move := if e.moved then upd.move + [EntityMove(e.id, e.pos)] else upd.move,
                             elo := if e.eloChanged then upd.elo + [EntityElo(e.id, e.elo)] else upd.elo)
    {
      r := upd;
      if e.id !in p.known {
        r := r.(spawn := r.spawn + [EntitySpawn(e.id, Shown(e))]);
      } else {
        if e.moved {
          r := r.(move := r.move + [EntityMove(e.id, e.pos)]);
        }
        if e.eloChanged {
          r := r.(elo := r.elo + [EntityElo(e.id, e.elo)]);
        }
      }
    }

    lemma SightFound(self: Entity, near: seq<Entity>, sight: set<nat>)
      requires EntitiesOk() && self.id in entities && entities[self.id] == self
      requires forall e :: e in near <==> grid.Has(e) && Near(CellOf(self.pos), CellOf(e.pos))
      requires sight == Ids(near, self)
      ensures sight == Sight(Snapshot(), self.id)
    {
      hide CellOf, Grid.Valid, Grid.Placed;
      forall id ensures id in sight <==> id in Sight(Snapshot(), self.id) {
        if id in sight {
          var e :| e in near && e != self && e.id == id;
        }
        if id in Sight(Snapshot(), self.id) {
          assert entities[id] in near;
        }
      }
    }
  }

  function Ids(near: seq<Entity>, self: Entity): set<nat> {
    set e | e in near && e != self :: e.id
  }
}
