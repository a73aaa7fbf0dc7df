/**
 * The hostile AI (components/ai.py): the cost grid handed to the
 * pathfinder, the path search, and the per-turn decision with its cached
 * path. BaseAI and HostileEnemy are one class here.
 */
module Ai {
  import opened Wrappers
  import opened TileTypes
  import opened World
  import opened Actions

  /**
   * The foreign pathfinder: given a cost grid (0 is impassable), the
   * cardinal and diagonal step costs, a root and a goal, the route from the
   * root (root included). Nothing is assumed about it.
   */
  type Pathfinder = (seq<seq<int>>, int, int, Pos, Pos) -> seq<Pos>

  const CardinalCost := 2
  const DiagonalCost := 3
  /** Extra cost of a passable cell that a blocking entity stands on. */
  const BlockedPenalty := 10

  function Abs(n: int): nat
  {
    if n < 0 then -n else n
  }

  /** Chebyshev distance: max(|dx|, |dy|), the number of king moves between two cells. */
  function Chebyshev(dx: int, dy: int): (d: nat)
    ensures d == Abs(dx) || d == Abs(dy)
    ensures Abs(dx) <= d && Abs(dy) <= d
    ensures d == 0 <==> dx == 0 && dy == 0
    ensures d <= 1 <==> -1 <= dx <= 1 && -1 <= dy <= 1
  {
    if Abs(dx) >= Abs(dy) then Abs(dx) else Abs(dy)
  }

  /** Python's `s[1:]`. */
  function DropFirst<T>(s: seq<T>): seq<T>
  {
    if s == [] then [] else s[1..]
  }

  /** The cost grid before any entity is considered: 1 on walkable cells, 0 elsewhere. */
  function BaseCost(tiles: seq<seq<Tile>>): (cost: seq<seq<int>>)
    ensures |cost| == |tiles|
    ensures forall x :: 0 <= x < |tiles| ==> |cost[x]| == |tiles[x]|
    ensures forall x, y :: 0 <= x < |tiles| && 0 <= y < |tiles[x]| ==>
              (cost[x][y] == 1 <==> tiles[x][y].walkable) && (cost[x][y] == 0 <==> !tiles[x][y].walkable)
  {
    seq(|tiles|, x requires 0 <= x < |tiles| =>
      seq(|tiles[x]|, y requires 0 <= y < |tiles[x]| => if tiles[x][y].walkable then 1 else 0))
  }

  /** One blocking entity's penalty at cell p: +10 when the cell's cost is non-zero, nothing otherwise. */
  function Penalize(cost: seq<seq<int>>, p: Pos): (r: seq<seq<int>>)
    requires 0 <= p.x < |cost| && 0 <= p.y < |cost[p.x]|
    ensures |r| == |cost| && forall x :: 0 <= x < |cost| ==> |r[x]| == |cost[x]|
    ensures forall x, y :: 0 <= x < |cost| && 0 <= y < |cost[x]| ==>
              r[x][y] == if x == p.x && y == p.y && cost[x][y] != 0
                         then cost[x][y] + BlockedPenalty else cost[x][y]
  {
    if cost[p.x][p.y] != 0 then cost[p.x := cost[p.x][p.y := cost[p.x][p.y] + BlockedPenalty]]
    else cost
  }

  /** The blocking entities of `s` that stand on (x, y). */
  function BlockersOn(s: set<Entity>, x: int, y: int): set<Entity>
    reads s
  {
    set e | e in s && e.blocksMovement && e.x == x && e.y == y
  }

  /** How many blocking entities of `s` stand on (x, y). */
  function BlockersAt(s: set<Entity>, x: int, y: int): nat
    reads s
  {
    |BlockersOn(s, x, y)|
  }

  /** The intended cost of one cell: impassable stays 0, otherwise +10 per blocking entity on it. */
  function PenalizedCell(base: int, s: set<Entity>, x: int, y: int): int
    reads s
  {
    if base == 0 then 0 else base + BlockedPenalty * BlockersAt(s, x, y)
  }

  /** The intended cost grid: every blocking entity of `s` adds its penalty. */
  function PenalizedCost(base: seq<seq<int>>, s: set<Entity>): (cost: seq<seq<int>>)
    reads s
    ensures |cost| == |base| && forall x :: 0 <= x < |base| ==> |cost[x]| == |base[x]|
    ensures forall x, y :: 0 <= x < |base| && 0 <= y < |base[x]| ==>
              cost[x][y] == PenalizedCell(base[x][y], s, x, y)
  {
    seq(|base|, x requires 0 <= x < |base| reads s =>
      seq(|base[x]|, y requires 0 <= y < |base[x]| reads s => PenalizedCell(base[x][y], s, x, y)))
  }

  /** Adding one entity to the counted set adds one blocker at its cell when it blocks, none elsewhere. */
  lemma BlockersAtAdd(s: set<Entity>, e: Entity, x: int, y: int)
    requires e !in s
    ensures BlockersAt(s + {e}, x, y) ==
            BlockersAt(s, x, y) + if e.blocksMovement && e.x == x && e.y == y then 1 else 0
  {
    var before, after := BlockersOn(s, x, y), BlockersOn(s + {e}, x, y);
    assert e !in before;
    if e.blocksMovement && e.x == x && e.y == y {
      assert after == before + {e};
    } else {
      assert after == before;
    }
  }

  /** Every blocking entity on a passable cell makes that cell cost more than a plain step. */
  lemma {:induction false} BlockersArePenalized(base: seq<seq<int>>, s: set<Entity>, e: Entity)
    requires e in s && e.blocksMovement
    requires 0 <= e.x < |base| && 0 <= e.y < |base[e.x]| && base[e.x][e.y] == 1
    ensures PenalizedCost(base, s)[e.x][e.y] >= 1 + BlockedPenalty
  {
    assert e in BlockersOn(s, e.x, e.y);
  }

  /** The map is ready for a path search: well formed, with every blocking entity on it. */
  ghost predicate SearchReady(m: GameMap)
    reads m, m.entities
  {
    m.Valid() && forall e :: e in m.entities && e.blocksMovement ==> m.InBounds(e.x, e.y)
  }

  /** The route the pathfinder gives over the intended cost grid, without its start cell. */
  ghost function Route(m: GameMap, start: Pos, goal: Pos, pathfinder: Pathfinder): seq<Pos>
    reads m, m.entities
  {
    DropFirst(pathfinder(PenalizedCost(BaseCost(m.tiles), m.entities), CardinalCost, DiagonalCost, start, goal))
  }

  /** The cost grid as written: only the first entity the loop visits can add a penalty. */
  function FirstOnlyCost(base: seq<seq<int>>, first: Entity): (cost: seq<seq<int>>)
    reads first
    requires first.blocksMovement ==> 0 <= first.x < |base| && 0 <= first.y < |base[first.x]|
    ensures |cost| == |base| && forall x :: 0 <= x < |base| ==> |cost[x]| == |base[x]|
    ensures forall x, y :: 0 <= x < |base| && 0 <= y < |base[x]| && !(first.blocksMovement && x == first.x && y == first.y) ==>
              cost[x][y] == base[x][y]
    ensures first.blocksMovement && base[first.x][first.y] != 0 ==>
              cost[first.x][first.y] == base[first.x][first.y] + BlockedPenalty
    ensures first.blocksMovement && base[first.x][first.y] == 0 ==> cost[first.x][first.y] == 0
  {
    if first.blocksMovement then Penalize(base, Pos(first.x, first.y)) else base
  }

  /**
   * As written, with two blocking entities on distinct passable cells,
   * whichever the loop visits first, the other one's cell keeps cost 1.
   */
  lemma AsWrittenMissesSecondBlocker(base: seq<seq<int>>, a: Entity, b: Entity)
    requires a.blocksMovement && b.blocksMovement && (a.x, a.y) != (b.x, b.y)
    requires 0 <= a.x < |base| && 0 <= a.y < |base[a.x]| && base[a.x][a.y] == 1
    requires 0 <= b.x < |base| && 0 <= b.y < |base[b.x]| && base[b.x][b.y] == 1
    ensures FirstOnlyCost(base, a)[b.x][b.y] == 1 && FirstOnlyCost(base, b)[a.x][a.y] == 1
    ensures PenalizedCost(base, {a, b})[a.x][a.y] == 1 + BlockedPenalty
    ensures PenalizedCost(base, {a, b})[b.x][b.y] == 1 + BlockedPenalty
  {
    assert BlockersOn({a, b}, a.x, a.y) == {a};
    assert BlockersOn({a, b}, b.x, b.y) == {b};
    assert BlockersAt({a, b}, a.x, a.y) == 1 && BlockersAt({a, b}, b.x, b.y) == 1;
  }

  /** One turn of following a cached route: step onto its first waypoint and drop it, or wait. */
  function Consume(route: seq<Pos>, at: Pos): (r: (Action, seq<Pos>))
    ensures r.0.MovementAction? <==> route != []
    ensures route == [] ==> r.0 == WaitAction && r.1 == route
    ensures route != [] ==> Pos(at.x + r.0.dx, at.y + r.0.dy) == route[0]
    ensures route != [] ==> |r.1| == |route| - 1 && r.1 == route[1..]
  {
    if route == [] then (WaitAction, route)
    else (MovementAction(route[0].x - at.x, route[0].y - at.y), route[1..])
  }

  /** The cells an actor stands on, turn after turn, while it consumes `route` and every step succeeds. */
  function Trail(route: seq<Pos>, at: Pos): seq<Pos>
    decreases |route|
  {
    var (action, rest) := Consume(route, at);
    if action.MovementAction? then
      var next := Pos(at.x + action.dx, at.y + action.dy);
      [next] + Trail(rest, next)
    else []
  }

  /** Consuming a cached route visits exactly its waypoints, in order, wherever the actor starts. */
  lemma {:induction false} TrailFollowsRoute(route: seq<Pos>, at: Pos)
    ensures Trail(route, at) == route
  {
    if route != [] {
      TrailFollowsRoute(route[1..], route[0]);
    }
  }

  class HostileEnemy {
    const entity: Entity
    /** The cached route, consumed one waypoint per turn. */
    var path: seq<Pos>

    constructor (entity: Entity)
      ensures this.entity == entity && path == []
    {
      this.entity := entity;
      path := [];
    }

    /**
     * get_path_to as evidently intended: every blocking entity's penalty
     * is added to the cost grid, then the pathfinder runs once from the
     * actor's cell.
     */
    method GetPathTo(destX: int, destY: int, pathfinder: Pathfinder) returns (route: seq<Pos>)
      requires entity.gamemap != null && SearchReady(entity.gamemap)
      ensures route == Route(entity.gamemap, Pos(entity.x, entity.y), Pos(destX, destY), pathfinder)
    {
      var m := entity.gamemap;
      var base := BaseCost(m.tiles);
      var cost := base;
      var todo := m.entities;
      ghost var done: set<Entity> := {};
      while todo != {}
        invariant todo + done == m.entities && todo !! done
        invariant |cost| == |base| && forall x :: 0 <= x < |base| ==> |cost[x]| == |base[x]|
        invariant forall x, y :: 0 <= x < |base| && 0 <= y < |base[x]| ==>
                    cost[x][y] == PenalizedCell(base[x][y], done, x, y)
        decreases todo
      {
        var e :| e in todo;
        if e.blocksMovement && cost[e.x][e.y] != 0 {
          cost := Penalize(cost, Pos(e.x, e.y));
        }
        forall x, y | 0 <= x < |base| && 0 <= y < |base[x]|
          ensures cost[x][y] == PenalizedCell(base[x][y], done + {e}, x, y)
        {
          BlockersAtAdd(done, e, x, y);
        }
        todo := todo - {e};
        done := done + {e};
      }
      assert forall x :: 0 <= x < |base| ==> cost[x] == PenalizedCost(base, m.entities)[x];
      assert cost == PenalizedCost(base, m.entities);
      route := DropFirst(pathfinder(cost, CardinalCost, DiagonalCost, Pos(entity.x, entity.y), Pos(destX, destY)));
    }

    /**
     * get_path_to as written: the `return` sits inside the entity loop, so
     * only the first entity visited can add a penalty, and a map with no
     * entities gives no route at all (None).
     */
    method GetPathToAsWritten(destX: int, destY: int, pathfinder: Pathfinder) returns (route: Option<seq<Pos>>)
      requires entity.gamemap != null && SearchReady(entity.gamemap)
      ensures route == None <==> entity.gamemap.entities == {}
      ensures route != None ==>
                exists first :: first in entity.gamemap.entities &&
                  route == Some(DropFirst(pathfinder(FirstOnlyCost(BaseCost(entity.gamemap.tiles), first),
                                                     CardinalCost, DiagonalCost,
                                                     Pos(entity.x, entity.y), Pos(destX, destY))))
    {
      var m := entity.gamemap;
      var base := BaseCost(m.tiles);
      var cost := base;
      // The source's entity loop returns at the end of its first iteration,
      // so that one iteration is all that is written out here.
      if m.entities != {} {
        var e :| e in m.entities;
        if e.blocksMovement {
          cost := Penalize(cost, Pos(e.x, e.y));
        }
        var found := pathfinder(cost, CardinalCost, DiagonalCost, Pos(entity.x, entity.y), Pos(destX, destY));
        return Some(DropFirst(found));
      }
      return None;
    }

    /**
     * One turn of the hostile AI against `target` on the engine's map:
     * attack when seen and adjacent; when seen and farther, replace the
     * cached route by a fresh search; then step along the cached route, or
     * wait when it is empty.
     */
    method Perform(target: Entity, engineMap: GameMap, pathfinder: Pathfinder) returns (action: Action)
      requires engineMap.Valid() && engineMap.InBounds(entity.x, entity.y)
      requires engineMap.visible[entity.x][entity.y] &&
               Chebyshev(target.x - entity.x, target.y - entity.y) > 1 ==>
                 entity.gamemap != null && SearchReady(entity.gamemap)
      modifies this`path
      ensures var dx, dy := target.x - entity.x, target.y - entity.y;
              var at := Pos(entity.x, entity.y);
              if engineMap.visible[entity.x][entity.y] && Chebyshev(dx, dy) <= 1 then
                action == MeleeAction(dx, dy) && path == old(path)
              else if engineMap.visible[entity.x][entity.y] then
                (action, path) == Consume(Route(entity.gamemap, at, Pos(target.x, target.y), pathfinder), at)
              else
                (action, path) == Consume(old(path), at)
    {
      var dx := target.x - entity.x;
      var dy := target.y - entity.y;
      var distance := Chebyshev(dx, dy);
      if engineMap.visible[entity.x][entity.y] {
        if distance <= 1 {
          return MeleeAction(dx, dy);
        }
        path := GetPathTo(target.x, target.y, pathfinder);
      }
      action := FollowPath();
    }

    /** The tail of perform: pop the first waypoint and step onto it, or wait when the route is empty. */
    method FollowPath() returns (action: Action)
      modifies this`path
      ensures (action, path) == Consume(old(path), Pos(entity.x, entity.y))
    {
      if path != [] {
        var dest := path[0];
        path := path[1..];
        return MovementAction(dest.x - entity.x, dest.y - entity.y);
      }
      return WaitAction;
    }
  }
}
