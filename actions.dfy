/** Actions (actions.py): one-shot commands performed by an entity on the engine's map. */
module Actions {
  import opened World

  /**
   * The actions the core creates. BaseAction, EscapeAction and
   * MovementAction are defined in actions.py; BumpAction, WaitAction and
   * MeleeAction are created by the input handlers and the AI but their
   * classes are not part of this model, so they appear only as values.
   */
  datatype Action =
    | BaseAction
    | EscapeAction
    | MovementAction(dx: int, dy: int)
    | BumpAction(dx: int, dy: int)
    | WaitAction
    | MeleeAction(dx: int, dy: int)
  {
    /** The actions whose `perform` this model defines. */
    predicate Performable()
    {
      BaseAction? || EscapeAction? || MovementAction?
    }
  }

  /**
   * How `perform` ends: normally, with the request to quit the game
   * (SystemExit), or with NotImplementedError.
   */
  datatype Outcome = Done | Quit | NotImplemented

  /**
   * Where a movement by (dx, dy) from `at` leaves the mover: on the target
   * cell when it is on the map and walkable, otherwise where it was.
   */
  function Destination(m: GameMap, at: Pos, dx: int, dy: int): (p: Pos)
    reads m
    requires m.Valid()
    ensures p == at || p == Pos(at.x + dx, at.y + dy)
    ensures p != at ==> m.InBounds(p.x, p.y) && m.Walkable(p.x, p.y)
    ensures !m.InBounds(at.x + dx, at.y + dy) ==> p == at
    ensures m.InBounds(at.x + dx, at.y + dy) && !m.Walkable(at.x + dx, at.y + dy) ==> p == at
    ensures m.InBounds(at.x + dx, at.y + dy) && m.Walkable(at.x + dx, at.y + dy) ==>
              p == Pos(at.x + dx, at.y + dy)
  {
    var tx, ty := at.x + dx, at.y + dy;
    if !m.InBounds(tx, ty) then at
    else if !m.Walkable(tx, ty) then at
    else Pos(tx, ty)
  }

  /**
   * Performs `a` for entity `e` on map `m`. Only a movement changes
   * anything, and only the entity's position; the map is never written.
   */
  method Perform(a: Action, m: GameMap, e: Entity) returns (o: Outcome)
    requires m.Valid() && a.Performable()
    modifies e`x, e`y
    ensures a.BaseAction? ==> o == NotImplemented
    ensures a.EscapeAction? ==> o == Quit
    ensures a.MovementAction? ==> o == Done
    ensures Pos(e.x, e.y) == if a.MovementAction?
                             then Destination(m, Pos(old(e.x), old(e.y)), a.dx, a.dy)
                             else Pos(old(e.x), old(e.y))
  {
    match a
    case BaseAction =>
      return NotImplemented;
    case EscapeAction =>
      return Quit;
    case MovementAction(dx, dy) =>
      var destX, destY := e.x + dx, e.y + dy;
      if !m.InBounds(destX, destY) {
        return Done;
      }
      if !m.tiles[destX][destY].walkable {
        return Done;
      }
      e.Move(dx, dy);
      return Done;
  }
}
