/** World updates as the client reads them (client/src/game.ts:299-351,
internal/protocol): what applying one does to its view. */
module WorldUpdates {
  import opened Grids

  /** Another entity, as a client sees it: where its last sample put it. */
  datatype Other = Other(look: Look, pos: Vec, elo: int)

  type View = map<nat, Other>

  datatype EntitySpawn = EntitySpawn(id: nat, other: Other)
  datatype EntityMove = EntityMove(id: nat, pos: Vec)
  datatype EntityElo = EntityElo(id: nat, elo: int)

  datatype WorldUpdate = WorldUpdate(spawn: seq<EntitySpawn>, move: seq<EntityMove>, elo: seq<EntityElo>, despawn: seq<nat>)

  function Spawned(view: View, spawn: seq<EntitySpawn>): View {
    if spawn == [] then view
    else
      var last := spawn[|spawn| - 1];
      Spawned(view, spawn[..|spawn| - 1])[last.id := last.other]
  }

  function MovedTo(view: View, move: seq<EntityMove>): View {
    if move == [] then view
    else
      var v, last := MovedTo(view, move[..|move| - 1]), move[|move| - 1];
      if last.id in v then v[last.id := v[last.id].(pos := last.pos)] else v
  }

  function Rated(view: View, elo: seq<EntityElo>): View {
    if elo == [] then view
    else
      var v, last := Rated(view, elo[..|elo| - 1]), elo[|elo| - 1];
      if last.id in v then v[last.id := v[last.id].(elo := last.elo)] else v
  }

  function Gone(view: View, despawn: seq<nat>): View {
    map id | id in view && id !in despawn :: view[id]
  }

  function Applied(view: View, upd: WorldUpdate): View {
    Gone(Rated(MovedTo(Spawned(view, upd.spawn), upd.move), upd.elo), upd.despawn)
  }

  /** What a client that starts from nothing makes of a run of updates. */
  function Folded(updates: seq<WorldUpdate>): View {
    if updates == [] then map[] else Applied(Folded(updates[..|updates| - 1]), updates[|updates| - 1])
  }

  lemma FoldedOnce(updates: seq<WorldUpdate>, upd: WorldUpdate)
    ensures Folded(updates + [upd]) == Applied(Folded(updates), upd)
  {
    assert (updates + [upd])[..|updates + [upd]| - 1] == updates;
  }

  // What the server means by an update: `snap` is every entity in sight as it is now.

  ghost predicate SpawnsFor(spawn: seq<EntitySpawn>, sight: set<nat>, known: set<nat>, snap: View) {
    && sight <= snap.Keys
    && (forall m | m in spawn :: m.id in sight && m.id !in known && m.other == snap[m.id])
    && (forall id | id in sight && id !in known :: EntitySpawn(id, snap[id]) in spawn)
  }

  ghost predicate MovesFor(move: seq<EntityMove>, sight: set<nat>, known: set<nat>, snap: View, moved: set<nat>) {
    && sight <= snap.Keys
    && (forall m | m in move :: m.id in sight && m.id in known && m.pos == snap[m.id].pos)
    && (forall id | id in sight && id in known && id in moved :: EntityMove(id, snap[id].pos) in move)
  }

  ghost predicate ElosFor(elo: seq<EntityElo>, sight: set<nat>, known: set<nat>, snap: View, changed: set<nat>) {
    && sight <= snap.Keys
    && (forall m | m in elo :: m.id in sight && m.id in known && m.elo == snap[m.id].elo)
    && (forall id | id in sight && id in known && id in changed :: EntityElo(id, snap[id].elo) in elo)
  }

  ghost predicate UpdateFor(upd: WorldUpdate, sight: set<nat>, known: set<nat>, snap: View, moved: set<nat>, changed: set<nat>) {
    && SpawnsFor(upd.spawn, sight, known, snap)
    && MovesFor(upd.move, sight, known, snap, moved)
    && ElosFor(upd.elo, sight, known, snap, changed)
  }

  lemma UpdateForNone(known: set<nat>, snap: View, moved: set<nat>, changed: set<nat>)
    ensures UpdateFor(WorldUpdate([], [], [], []), {}, known, snap, moved, changed)
  {
  }

  /** One more entity in sight, and what is said about it. */
  lemma UpdateForOneMore(upd: WorldUpdate, sight: set<nat>, known: set<nat>, snap: View, moved: set<nat>, changed: set<nat>, id: nat)
    requires UpdateFor(upd, sight, known, snap, moved, changed) && id in snap
    ensures UpdateFor(
              if id !in known then upd.(spawn := upd.spawn + [EntitySpawn(id, snap[id])])
              else upd.(move := if id in moved then upd.move + [EntityMove(id, snap[id].pos)] else upd.move,
                        elo := if id in changed then upd.elo + [EntityElo(id, snap[id].elo)] else upd.elo),
              sight + {id}, known, snap, moved, changed)
  {
  }

  /** A view is only wrong about entities that are flagged. */
  ghost predicate Fresh(view: View, snap: View, moved: set<nat>, changed: set<nat>) {
    forall id | id in view && id in snap ::
      && view[id].look == snap[id].look
      && (id in moved || view[id].pos == snap[id].pos)
      && (id in changed || view[id].elo == snap[id].elo)
  }

  lemma {:induction false} SpawnedIs(view: View, spawn: seq<EntitySpawn>, id: nat, o: Other)
    requires forall m | m in spawn && m.id == id :: m.other == o
    ensures if exists m :: m in spawn && m.id == id
            then id in Spawned(view, spawn) && Spawned(view, spawn)[id] == o
            else (id in Spawned(view, spawn) <==> id in view) && (id in view ==> Spawned(view, spawn)[id] == view[id])
  {
    if spawn != [] {
      var init, last := spawn[..|spawn| - 1], spawn[|spawn| - 1];
      assert spawn == init + [last];
      SpawnedIs(view, init, id, o);
    }
  }

  lemma {:induction false} MovedIs(view: View, move: seq<EntityMove>, id: nat, pos: Vec)
    requires forall m | m in move && m.id == id :: m.pos == pos
    ensures id in MovedTo(view, move) <==> id in view
    ensures id in view ==>
              MovedTo(view, move)[id] == if exists m :: m in move && m.id == id then view[id].(pos := pos) else view[id]
  {
    if move != [] {
      var init, last := move[..|move| - 1], move[|move| - 1];
      assert move == init + [last];
      MovedIs(view, init, id, pos);
    }
  }

  lemma {:induction false} RatedIs(view: View, elo: seq<EntityElo>, id: nat, now: int)
    requires forall m | m in elo && m.id == id :: m.elo == now
    ensures id in Rated(view, elo) <==> id in view
    ensures id in view ==>
              Rated(view, elo)[id] == if exists m :: m in elo && m.id == id then view[id].(elo := now) else view[id]
  {
    if elo != [] {
      var init, last := elo[..|elo| - 1], elo[|elo| - 1];
      assert elo == init + [last];
      RatedIs(view, init, id, now);
    }
  }

  /** Deltas are enough: applied to a view that is wrong only about what is flagged, an
      update for what is in sight makes the view exactly that. */
  lemma AppliedIsSight(view: View, upd: WorldUpdate, sight: set<nat>, snap: View, moved: set<nat>, changed: set<nat>)
    requires Fresh(view, snap, moved, changed)
    requires UpdateFor(upd, sight, view.Keys, snap, moved, changed)
    requires forall id: nat :: id in upd.despawn <==> id in view && id !in sight
    ensures Applied(view, upd) == map id | id in sight :: snap[id]
  {
    var spawned := Spawned(view, upd.spawn);
    var moved' := MovedTo(spawned, upd.move);
    var rated := Rated(moved', upd.elo);
    forall id: nat
      ensures id in sight ==> id in rated && rated[id] == snap[id]
      ensures id !in sight ==> (id in rated <==> id in view)
    {
      var now := if id in sight then snap[id] else Other(Look("", "", "", ""), Vec(0, 0), 0);
      SpawnedIs(view, upd.spawn, id, now);
      MovedIs(spawned, upd.move, id, now.pos);
      RatedIs(moved', upd.elo, id, now.elo);
    }
  }

  /** A client's half (client/src/game.ts). */
  class Client {
    var others: View
    /** The updates that came since the welcome. */
    ghost var updates: seq<WorldUpdate>

    /** The view is what those updates make of an empty one. */
    ghost predicate Replayed()
      reads this
    {
      others == Folded(updates)
    }

    constructor ()
      ensures Replayed()
    {
      others, updates := map[], [];
    }

    /** Forgets the view and the updates behind it. */
    method Welcome()
      modifies this
      ensures others == map[] && updates == [] && Replayed()
    {
      others, updates := map[], [];
    }

    method ApplyWorldUpdate(upd: WorldUpdate)
      modifies this
      ensures others == Applied(old(others), upd) && updates == old(updates) + [upd]
      ensures old(Replayed()) ==> Replayed()
    {
      hide Applied;
      FoldedOnce(updates, upd);
      ApplyLists(upd);
      updates := updates + [upd];
    }

    /** Spawns, then moves, then elos, then despawns. */
    method ApplyLists(upd: WorldUpdate)
      modifies this`others
      ensures others == Applied(old(others), upd)
    {
      ghost var before := others;
      for i := 0 to |upd.spawn|
        invariant others == Spawned(before, upd.spawn[..i])
      {
        assert upd.spawn[..i + 1][..i] == upd.spawn[..i];
        others := others[upd.spawn[i].id := upd.spawn[i].other];
      }
      assert upd.spawn[..|upd.spawn|] == upd.spawn;
      ghost var spawned := others;
      for i := 0 to |upd.move|
        invariant others == MovedTo(spawned, upd.move[..i])
      {
        assert upd.move[..i + 1][..i] == upd.move[..i];
        var m := upd.move[i];
        if m.id in others {
          others := others[m.id := others[m.id].(pos := m.pos)];
        }
      }
      assert upd.move[..|upd.move|] == upd.move;
      ghost var moved := others;
      for i := 0 to |upd.elo|
        invariant others == Rated(moved, upd.elo[..i])
      {
        assert upd.elo[..i + 1][..i] == upd.elo[..i];
        var m := upd.elo[i];
        if m.id in others {
          others := others[m.id := others[m.id].(elo := m.elo)];
        }
      }
      assert upd.elo[..|upd.elo|] == upd.elo;
      ghost var rated := others;
      for i := 0 to |upd.despawn|
        invariant others == Gone(rated, upd.despawn[..i])
      {
        others := others - {upd.despawn[i]};
      }
      assert upd.despawn[..|upd.despawn|] == upd.despawn;
    }
  }
}
