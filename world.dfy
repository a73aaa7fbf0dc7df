/**
 * The map grid (game_map.py) and the entities placed on it (entity.py).
 * The two source files refer to each other (a map holds a set of entities,
 * an entity holds its map), so both classes live in this one module.
 */
module World {
  import opened Wrappers
  import opened TileTypes

  /** A map cell, as (x, y). */
  datatype Pos = Pos(x: int, y: int)

  /** `g` has `w` columns of `h` cells each; cells are indexed g[x][y]. */
  predicate IsGrid<T>(g: seq<seq<T>>, w: int, h: int)
  {
    |g| == w && forall x :: 0 <= x < w ==> |g[x]| == h
  }

  /** A w-by-h grid holding `v` everywhere (numpy's `full`). */
  function Filled<T>(w: nat, h: nat, v: T): (g: seq<seq<T>>)
    ensures IsGrid(g, w, h)
    ensures forall x, y :: 0 <= x < w && 0 <= y < h ==> g[x][y] == v
  {
    seq(w, _ => seq(h, _ => v))
  }

  /**
   * numpy's `select` for one cell: the choice paired with the first true
   * condition, or `default` when no condition holds.
   */
  function Select<T>(conds: seq<bool>, choices: seq<T>, default: T): T
    requires |conds| == |choices|
  {
    if conds == [] then default
    else if conds[0] then choices[0]
    else Select(conds[1..], choices[1..], default)
  }

  /** Select picks the choice of the first true condition. */
  lemma {:induction false} SelectFirstTrue<T>(conds: seq<bool>, choices: seq<T>, default: T, i: nat)
    requires |conds| == |choices| && i < |conds| && conds[i]
    requires forall j :: 0 <= j < i ==> !conds[j]
    ensures Select(conds, choices, default) == choices[i]
  {
    if i > 0 {
      SelectFirstTrue(conds[1..], choices[1..], default, i - 1);
    }
  }

  /** Select falls back to the default exactly when no condition holds. */
  lemma {:induction false} SelectNoneTrue<T>(conds: seq<bool>, choices: seq<T>, default: T)
    requires |conds| == |choices|
    requires forall j :: 0 <= j < |conds| ==> !conds[j]
    ensures Select(conds, choices, default) == default
  {
    if conds != [] {
      SelectNoneTrue(conds[1..], choices[1..], default);
    }
  }

  /**
   * The appearance of one map cell: lit when visible, unlit when only
   * explored, the shroud otherwise. Visibility takes priority.
   */
  function CellGraphic(t: Tile, visible: bool, explored: bool): (g: Graphic)
    ensures visible ==> g == t.light
    ensures !visible && explored ==> g == t.dark
    ensures !visible && !explored ==> g == Shroud
  {
    var conds, choices := [visible, explored], [t.light, t.dark];
    if visible then
      SelectFirstTrue(conds, choices, Shroud, 0);
      Select(conds, choices, Shroud)
    else if explored then
      SelectFirstTrue(conds, choices, Shroud, 1);
      Select(conds, choices, Shroud)
    else
      SelectNoneTrue(conds, choices, Shroud);
      Select(conds, choices, Shroud)
  }

  class GameMap {
    var width: int
    var height: int
    var tiles: seq<seq<Tile>>
    var visible: seq<seq<bool>>
    var explored: seq<seq<bool>>
    var entities: set<Entity>

    /** The three grids share the map's width-by-height shape. */
    ghost predicate Valid()
      reads this
    {
      0 <= width && 0 <= height &&
      IsGrid(tiles, width, height) &&
      IsGrid(visible, width, height) &&
      IsGrid(explored, width, height)
    }

    /** A fresh map: walls everywhere, nothing visible, nothing explored, no entities. */
    constructor (width: nat, height: nat)
      ensures Valid() && this.width == width && this.height == height
      ensures forall x, y :: 0 <= x < width && 0 <= y < height ==>
                tiles[x][y] == Wall && !visible[x][y] && !explored[x][y]
      ensures entities == {}
    {
      this.width := width;
      this.height := height;
      tiles := Filled(width, height, Wall);
      visible := Filled(width, height, false);
      explored := Filled(width, height, false);
      entities := {};
    }

    /** Whether (x, y) lies on the map, that is, indexes a cell of every grid. */
    function InBounds(x: int, y: int): (b: bool)
      reads this
      ensures Valid() ==> (b <==> 0 <= x < |tiles| && 0 <= y < |tiles[x]|)
      ensures Valid() && b ==> y < |visible[x]| && y < |explored[x]|
    {
      0 <= x < width && 0 <= y < height
    }

    /** The walkable flag of an on-map cell. */
    function Walkable(x: int, y: int): bool
      reads this
      requires Valid() && InBounds(x, y)
    {
      tiles[x][y].walkable
    }

    /**
     * Paints the map into the top-left width-by-height corner of the console;
     * every other console cell, and the map itself, is left as it was.
     */
    method Render(console: array2<Graphic>)
      requires Valid() && width <= console.Length0 && height <= console.Length1
      modifies console
      ensures forall x, y :: 0 <= x < console.Length0 && 0 <= y < console.Length1 ==>
                console[x, y] == if x < width && y < height
                                 then CellGraphic(tiles[x][y], visible[x][y], explored[x][y])
                                 else old(console[x, y])
    {
      var x := 0;
      while x < width
        invariant 0 <= x <= width
        invariant forall i, j :: 0 <= i < console.Length0 && 0 <= j < console.Length1 ==>
                    console[i, j] == if i < x && j < height
                                     then CellGraphic(tiles[i][j], visible[i][j], explored[i][j])
                                     else old(console[i, j])
      {
        var y := 0;
        while y < height
          invariant 0 <= y <= height
          invariant forall i, j :: 0 <= i < console.Length0 && 0 <= j < console.Length1 ==>
                      console[i, j] == if (i < x && j < height) || (i == x && j < y)
                                       then CellGraphic(tiles[i][j], visible[i][j], explored[i][j])
                                       else old(console[i, j])
        {
          console[x, y] := CellGraphic(tiles[x][y], visible[x][y], explored[x][y]);
          y := y + 1;
        }
        x := x + 1;
      }
    }
  }

  /** The map behind a possibly absent reference, as a frame. */
  function Maps(m: GameMap?): set<GameMap>
  {
    if m == null then {} else {m}
  }

  /** What `place` raises, when it raises. */
  datatype Fault = KeyError | AttributeError
  datatype Status = Ok | Raised(fault: Fault)

  class Entity {
    var x: int
    var y: int
    var glyph: string
    var color: Rgb
    var name: string
    var blocksMovement: bool
    /** The map this entity is on; null while the entity has no map attribute. */
    var gamemap: GameMap?

    /** Stores its arguments; with a map, joins that map's entity set. */
    constructor (gamemap: GameMap? := null, x: int := 0, y: int := 0, glyph: string := "?",
                 color: Rgb := Rgb(255, 255, 255), name: string := "<unnamed>",
                 blocksMovement: bool := false)
      modifies Maps(gamemap)`entities
      ensures this.x == x && this.y == y && this.glyph == glyph && this.color == color
      ensures this.name == name && this.blocksMovement == blocksMovement
      ensures this.gamemap == gamemap
      ensures gamemap != null ==> gamemap.entities == old(gamemap.entities) + {this}
    {
      this.x := x;
      this.y := y;
      this.glyph := glyph;
      this.color := color;
      this.name := name;
      this.blocksMovement := blocksMovement;
      this.gamemap := gamemap;
      new;
      if gamemap != null {
        gamemap.entities := gamemap.entities + {this};
      }
    }

    /**
     * A field-wise copy of this entity at (x, y) on `gamemap`, which gains it;
     * the original is left as it was.
     */
    method Spawn(gamemap: GameMap, x: int, y: int) returns (clone: Entity)
      modifies gamemap`entities
      ensures fresh(clone)
      ensures clone.x == x && clone.y == y && clone.gamemap == gamemap
      ensures clone.glyph == glyph && clone.color == color && clone.name == name
      ensures clone.blocksMovement == blocksMovement
      ensures gamemap.entities == old(gamemap.entities) + {clone}
      ensures unchanged(this)
    {
      clone := new Entity(null, this.x, this.y, glyph, color, name, blocksMovement);
      clone.x := x;
      clone.y := y;
      clone.gamemap := gamemap;
      gamemap.entities := gamemap.entities + {clone};
    }

    /**
     * Sets the position. Given a map, the code as written leaves its current
     * map's set (raising KeyError when it was not in it) and then always
     * raises AttributeError: `gamemap` is never assigned and the new map's
     * set is never joined.
     */
    method Place(x: int, y: int, gamemap: GameMap? := null) returns (status: Status)
      modifies this`x, this`y, Maps(this.gamemap)`entities
      ensures this.x == x && this.y == y
      ensures gamemap == null ==> status == Ok
      ensures gamemap != null && this.gamemap == null ==> status == Raised(AttributeError)
      ensures gamemap != null && this.gamemap != null && this !in old(this.gamemap.entities) ==>
                status == Raised(KeyError)
      ensures gamemap != null && this.gamemap != null && this in old(this.gamemap.entities) ==>
                status == Raised(AttributeError)
      ensures this.gamemap != null ==>
                this.gamemap.entities == if gamemap == null then old(this.gamemap.entities)
                                         else old(this.gamemap.entities) - {this}
      ensures gamemap != null && gamemap != this.gamemap ==> gamemap.entities == old(gamemap.entities)
    {
      this.x := x;
      this.y := y;
      if gamemap != null {
        if this.gamemap != null {
          if this !in this.gamemap.entities {
            return Raised(KeyError);
          }
          this.gamemap.entities := this.gamemap.entities - {this};
        }
        return Raised(AttributeError);
      }
      return Ok;
    }

    /** `place` as evidently intended: the entity moves to the new map's set and records it. */
    method PlaceFixed(x: int, y: int, gamemap: GameMap? := null) returns (status: Status)
      modifies this`x, this`y, this`gamemap, Maps(this.gamemap)`entities, Maps(gamemap)`entities
      ensures this.x == x && this.y == y
      ensures gamemap == null ==> status == Ok && unchanged(this`gamemap)
      ensures gamemap == null && this.gamemap != null ==> this.gamemap.entities == old(this.gamemap.entities)
      ensures gamemap != null && old(this.gamemap) != null && this !in old(this.gamemap.entities) ==>
                status == Raised(KeyError) && old(this.gamemap).entities == old(this.gamemap.entities) &&
                this.gamemap == old(this.gamemap) &&
                (gamemap != old(this.gamemap) ==> gamemap.entities == old(gamemap.entities))
      ensures gamemap != null && (old(this.gamemap) == null || this in old(this.gamemap.entities)) ==>
                status == Ok && this.gamemap == gamemap &&
                gamemap.entities == old(gamemap.entities) + {this}
      ensures gamemap != null && old(this.gamemap) != null && old(this.gamemap) != gamemap &&
              this in old(this.gamemap.entities) ==>
                old(this.gamemap).entities == old(this.gamemap.entities) - {this}
    {
      this.x := x;
      this.y := y;
      if gamemap != null {
        if this.gamemap != null {
          if this !in this.gamemap.entities {
            return Raised(KeyError);
          }
          this.gamemap.entities := this.gamemap.entities - {this};
        }
        this.gamemap := gamemap;
        gamemap.entities := gamemap.entities + {this};
      }
      return Ok;
    }

    /** Shifts the position by (dx, dy) and changes nothing else. */
    method Move(dx: int, dy: int)
      modifies this`x, this`y
      ensures x == old(x) + dx && y == old(y) + dy
    {
      x := x + dx;
      y := y + dy;
    }
  }

  /** As written, placing an entity onto a second map leaves it on neither map. */
  method PlaceAcrossMapsLosesEntity() returns (e: Entity, from: GameMap, to: GameMap, status: Status)
    ensures status == Raised(AttributeError)
    ensures e !in from.entities && e !in to.entities
    ensures e.x == 1 && e.y == 1
  {
    from := new GameMap(2, 2);
    to := new GameMap(3, 3);
    e := new Entity(from);
    status := e.Place(1, 1, to);
  }

  /** With the intended line, the same call moves the entity onto the second map. */
  method PlaceAcrossMapsFixed() returns (e: Entity, from: GameMap, to: GameMap, status: Status)
    ensures status == Ok && e.gamemap == to
    ensures e !in from.entities && e in to.entities
    ensures e.x == 1 && e.y == 1
  {
    from := new GameMap(2, 2);
    to := new GameMap(3, 3);
    e := new Entity(from);
    status := e.PlaceFixed(1, 1, to);
  }
}
