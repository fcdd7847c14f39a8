/** The uniform spatial grid (internal/game/grid.go): a faithful index of entities by
position, under any sequence of inserts, removes and moves. Coordinates are unbounded;
the map keeps positions well inside 32 bits (internal/game/world.go:241-243). */
module Grids {
  import opened Ranges

  const CELL_SIZE := 1024

  datatype Vec = Vec(x: int, y: int)
  datatype Cell = Cell(x: int, y: int)

  /** What never changes about an entity. */
  datatype Look = Look(name: string, character: string, cls: string, sprite: string)

  /** Go's division truncates. */
  function Quotient(a: int, b: int): int
    requires b != 0
  {
    if a >= 0 then (if b > 0 then a / b else -(a / -b))
    else if b > 0 then -(-a / b) else -a / -b
  }

  function Remainder(a: int, b: int): int
    requires b != 0
  {
    a - b * Quotient(a, b)
  }

  function FloorDiv(a: int, b: int): int
    requires b != 0
  {
    var q := Quotient(a, b);
    if Remainder(a, b) != 0 && (a < 0) != (b < 0) then q - 1 else q
  }

  function CellOf(p: Vec): Cell {
    Cell(FloorDiv(p.x, CELL_SIZE), FloorDiv(p.y, CELL_SIZE))
  }

  /** Left and above the origin too, a coordinate is in exactly the cell that spans it. */
  lemma FloorDivFloors(a: int)
    ensures FloorDiv(a, CELL_SIZE) * CELL_SIZE <= a < (FloorDiv(a, CELL_SIZE) + 1) * CELL_SIZE
  {
    if a < 0 {
      var q := -a / CELL_SIZE;
      assert q * CELL_SIZE <= -a < (q + 1) * CELL_SIZE;
    }
  }

  predicate Near(c: Cell, d: Cell) {
    -1 <= d.x - c.x <= 1 && -1 <= d.y - c.y <= 1
  }

  function Gap(a: int, b: int): nat {
    if a < b then b - a else a - b
  }

  lemma AxisReach(a: int, b: int)
    ensures Gap(a, b) <= CELL_SIZE ==> Gap(FloorDiv(a, CELL_SIZE), FloorDiv(b, CELL_SIZE)) <= 1
    ensures Gap(FloorDiv(a, CELL_SIZE), FloorDiv(b, CELL_SIZE)) <= 1 ==> Gap(a, b) < 2 * CELL_SIZE
  {
    FloorDivFloors(a);
    FloorDivFloors(b);
    var c, d := FloorDiv(a, CELL_SIZE), FloorDiv(b, CELL_SIZE);
    hide FloorDiv;
    if c > d + 1 {
      assert a - b > CELL_SIZE;
    } else if d > c + 1 {
      assert b - a > CELL_SIZE;
    }
  }

  /** Everything within a cell's size on both axes is near, nothing two cells away on
      either is. */
  lemma Reach(p: Vec, q: Vec)
    ensures Gap(p.x, q.x) <= CELL_SIZE && Gap(p.y, q.y) <= CELL_SIZE ==> Near(CellOf(p), CellOf(q))
    ensures Near(CellOf(p), CellOf(q)) ==> Gap(p.x, q.x) < 2 * CELL_SIZE && Gap(p.y, q.y) < 2 * CELL_SIZE
    ensures Near(CellOf(p), CellOf(q)) <==> Near(CellOf(q), CellOf(p))
  {
    AxisReach(p.x, q.x);
    AxisReach(p.y, q.y);
    hide FloorDiv;
  }

  class Entity {
    const id: nat
    const look: Look
    var pos: Vec
    var elo: int
    /** Its position may not be what clients last heard. */
    var moved: bool
    /** Its elo may not be what clients last heard. */
    var eloChanged: bool
    var cell: Cell

    constructor (id: nat, look: Look, pos: Vec, elo: int)
      ensures this.id == id && this.look == look && this.pos == pos && this.elo == elo
      ensures !moved && !eloChanged
    {
      this.id, this.look, this.pos, this.elo := id, look, pos, elo;
      moved, eloChanged, cell := false, false, Cell(0, 0);
    }
  }

  /** The cells hold exactly the entities inside, each filed once, where `at` says; no
      empty cell is kept. */
  ghost predicate Filed<E>(cells: map<Cell, map<nat, E>>, inside: map<nat, E>, at: map<nat, Cell>) {
    && inside.Keys == at.Keys
    && (forall c | c in cells :: cells[c] != map[])
    && (forall c, id | c in cells && id in cells[c] :: id in inside && cells[c][id] == inside[id] && at[id] == c)
    && (forall id | id in inside :: at[id] in cells && id in cells[at[id]])
  }

  lemma InsertFiles<E>(cells: map<Cell, map<nat, E>>, inside: map<nat, E>, at: map<nat, Cell>, cell: map<nat, E>, c: Cell, id: nat, e: E)
    requires Filed(cells, inside, at) && id !in inside
    requires cell == (if c in cells then cells[c] else map[])
    ensures Filed(cells[c := cell[id := e]], inside[id := e], at[id := c])
  {
    var cells' := cells[c := cell[id := e]];
    assert id in cells'[c];
    forall d, k | d in cells' && k in cells'[d]
      ensures k in inside[id := e] && cells'[d][k] == inside[id := e][k] && at[id := c][k] == d
    {
      if k != id && d == c {
        assert k in cells[c];
      }
    }
  }

  lemma FiledIn<E>(cells: map<Cell, map<nat, E>>, inside: map<nat, E>, at: map<nat, Cell>, c: Cell)
    requires Filed(cells, inside, at)
    ensures c in cells ==> forall id | id in cells[c] :: id in inside && cells[c][id] == inside[id] && at[id] == c
    ensures forall id | id in inside && at[id] == c :: c in cells && id in cells[c]
  {
  }

  lemma DistinctTogether<T>(xs: seq<T>, ys: seq<T>)
    requires forall i, j | 0 <= i < j < |xs| :: xs[i] != xs[j]
    requires forall i, j | 0 <= i < j < |ys| :: ys[i] != ys[j]
    requires forall y | y in ys :: y !in xs
    ensures forall i, j | 0 <= i < j < |xs + ys| :: (xs + ys)[i] != (xs + ys)[j]
  {
    forall i, j | 0 <= i < j < |xs + ys| ensures (xs + ys)[i] != (xs + ys)[j] {
      if i < |xs| <= j {
        assert ys[j - |xs|] in ys;
      }
    }
  }

  lemma RemoveFiles<E>(cells: map<Cell, map<nat, E>>, inside: map<nat, E>, at: map<nat, Cell>, id: nat)
    requires Filed(cells, inside, at) && id in inside
    ensures var cell := cells[at[id]] - {id};
            Filed(if cell == map[] then cells - {at[id]} else cells[at[id] := cell], inside - {id}, at - {id})
  {
    var cell := cells[at[id]] - {id};
    var cells' := if cell == map[] then cells - {at[id]} else cells[at[id] := cell];
    forall k | k in inside && k != id ensures at[k] in cells' && k in cells'[at[k]] {
      if at[k] == at[id] {
        assert k in cell;
      }
    }
  }

  class Grid {
    var cells: map<Cell, map<nat, Entity>>
    /** The entities inserted and not removed. */
    ghost var inside: map<nat, Entity>

    /** Where the entities inside think they are filed. */
    ghost function At(): map<nat, Cell>
      reads this, inside.Values`cell
    {
      map id | id in inside :: inside[id].cell
    }

    /** Each entity inside is in exactly one cell, the one it remembers. */
    ghost predicate Valid()
      reads this, inside.Values`cell
    {
      Filed(cells, inside, At()) && forall id | id in inside :: inside[id].id == id
    }

    /** Every entity is filed under where it is. */
    ghost predicate Placed()
      reads this, inside.Values`cell, inside.Values`pos
    {
      forall id | id in inside :: inside[id].cell == CellOf(inside[id].pos)
    }

    /** ... but for e, which just moved. */
    ghost predicate PlacedBut(e: Entity)
      reads this, (inside.Values - {e})`cell, (inside.Values - {e})`pos
    {
      forall id | id in inside && inside[id] != e :: inside[id].cell == CellOf(inside[id].pos)
    }

    ghost predicate Has(e: Entity)
      reads this
    {
      e.id in inside && inside[e.id] == e
    }

    constructor ()
      ensures Valid() && Placed() && inside == map[]
    {
      cells, inside := map[], map[];
    }

    method Insert(e: Entity)
      requires Valid() && e.id !in inside
      modifies this, e`cell
      ensures Valid() && inside == old(inside)[e.id := e]
      ensures old(Placed()) ==> Placed()
    {
      hide Filed, CellOf;
      var c := CellOf(e.pos);
      var cell: map<nat, Entity> := if c in cells then cells[c] else map[];
      InsertFiles(cells, inside, At(), cell, c, e.id, e);
      ghost var at := At();
      assert forall id | id in inside :: inside[id] != e;
      e.cell := c;
      cell := cell[e.id := e];
      cells := cells[c := cell];
      inside := inside[e.id := e];
      assert At() == at[e.id := c];
    }

    method Remove(e: Entity)
      requires Valid() && Has(e)
      modifies this
      ensures Valid() && inside == old(inside) - {e.id}
      ensures old(Placed()) ==> Placed()
      ensures old(PlacedBut(e)) ==> Placed()
    {
      hide Filed;
      ghost var at := At();
      RemoveFiles(cells, inside, at, e.id);
      FiledIn(cells, inside, at, e.cell);
      var cell := cells[e.cell] - {e.id};
      if cell == map[] {
        cells := cells - {e.cell};
      } else {
        cells := cells[e.cell := cell];
      }
      inside := inside - {e.id};
      assert At() == at - {e.id};
    }

    /** After changing e.pos. */
    method Moved(e: Entity)
      requires Valid() && Has(e)
      modifies this, e`cell
      ensures Valid() && inside == old(inside)
      ensures old(PlacedBut(e)) ==> Placed()
    {
      hide Valid, CellOf;
      if CellOf(e.pos) != e.cell {
        Remove(e);
        Insert(e);
      }
    }

    /** The entities in the 3x3 cells around p, each once: exactly those near it by
        brute force. */
    method NearTo(p: Vec) returns (found: seq<Entity>)
      requires Valid() && Placed()
      ensures forall e :: e in found <==> Has(e) && Near(CellOf(p), CellOf(e.pos))
      ensures forall i, j | 0 <= i < j < |found| :: found[i] != found[j]
    {
      hide Valid, CellOf;
      var c := CellOf(p);
      found := [];
      for dx := -1 to 2
        invariant forall e :: e in found <==> Has(e) && Seen(c, e.cell, dx, -1)
        invariant forall i, j | 0 <= i < j < |found| :: found[i] != found[j]
      {
        for dy := -1 to 2
          invariant forall e :: e in found <==> Has(e) && Seen(c, e.cell, dx, dy)
          invariant forall i, j | 0 <= i < j < |found| :: found[i] != found[j]
        {
          var here := EntitiesIn(Cell(c.x + dx, c.y + dy));
          DistinctTogether(found, here);
          found := found + here;
        }
      }
      assert forall e | Has(e) :: Seen(c, e.cell, 2, -1) <==> Near(c, CellOf(e.pos));
    }

    method EntitiesIn(key: Cell) returns (here: seq<Entity>)
      requires Valid()
      ensures forall e :: e in here <==> Has(e) && e.cell == key
      ensures forall i, j | 0 <= i < j < |here| :: here[i] != here[j]
    {
      hide Filed;
      FiledIn(cells, inside, At(), key);
      here := [];
      if key !in cells {
        return;
      }
      var cell: map<nat, Entity> := cells[key];
      var ids := InSomeOrder(cell.Keys);
      for i := 0 to |ids|
        invariant |here| == i
        invariant forall k | 0 <= k < i :: here[k] == cell[ids[k]]
      {
        here := here + [cell[ids[i]]];
      }
      forall k | 0 <= k < |ids| ensures here[k].id == ids[k] && Has(here[k]) && here[k].cell == key {
        assert ids[k] in ids;
        assert At()[ids[k]] == inside[ids[k]].cell;
      }
      forall e | Has(e) && e.cell == key ensures e in here {
        assert e.id in ids;
        var i :| 0 <= i < |ids| && ids[i] == e.id;
        assert here[i] == e;
      }
    }
  }

  /** Whether a cell comes before column dx, row dy in the scan around c. */
  predicate Seen(c: Cell, d: Cell, dx: int, dy: int) {
    Near(c, d) && (d.x - c.x < dx || (d.x - c.x == dx && d.y - c.y < dy))
  }
}
