# RogueLike core in Dafny

This project models the game core of a small tile-based roguelike:

- the tile types and the map with its `visible` and `explored` grids;
- map rendering, where a visible cell is lit, an explored cell is dark and any other cell is shroud;
- entities: construction, spawning, placing and moving;
- the movement and escape actions;
- the hostile AI: the cost grid it hands to the pathfinder, its cached path and its choice of move;
- the message log: stacking of repeated messages and bottom-up, newest-first rendering;
- the input handlers: key tables, the main and game-over handlers, and the message-history viewer's cursor.

Modules follow the source files:

- `TileTypes` models `tile_types.py`.
- `World` models both `game_map.py` and `entity.py`. A map holds its entities and an entity holds its map, and Dafny does not allow cyclic imports.
- `Actions` models `actions.py`.
- `Ai` models `components/ai.py`.
- `MessageLogs` models `message_log.py`.
- `InputHandlers` models `input_handlers.py`.
- `Wrappers` holds an `Option` type.

State that the source changes in place is modelled with classes and imperative methods:

- the map's grids and entity set;
- an entity's position and map;
- the AI's cached path;
- the message list and the counts of its messages;
- the viewer's cursor.

Map rendering (`World.GameMap.Render`) writes into an `array2` that stands for the console's cells. Message rendering (`MessageLogs.MessageLog.RenderMessages`, `MessageLogs.MessageLog.Render`) and history rendering (`InputHandlers.HistoryViewer.RenderHistory`) return a `seq<PrintCall>`, the `console.print` calls in the order they are made. Pure lookups and computations are functions.

Code that cannot be seen is passed in as a parameter:

- the pathfinder (`tcod.path`), as a function from a cost grid, two step costs, a root and a goal to a route;
- the word wrapper (`textwrap.wrap`), as a function from a text and a width to lines.

Nothing is assumed about either one.

One edge case of the code is kept as written: when `height <= 0`, `render_messages` (`message_log.py:80-87`) still prints one line, at `y + height - 1`, before it returns. `Shown` keeps `max(height, 1)` lines.

## Model

| member | source | states |
|---|---|---|
| TileTypes.NewTile | tile_types.py:22-30 | a tile holds exactly the walkable and transparent flags and the dark and light graphics it was built from |
| TileTypes.FloorOpenWallClosed | tile_types.py:36-48 | floor is walkable and transparent; wall is neither |
| TileTypes.ShroudIsBlank | tile_types.py:33-34 | the shroud is a space, white on black |
| TileTypes.TilesAreTwoTone | tile_types.py:36-48 | floor and wall are drawn as spaces in white, and their dark and light backgrounds differ |
| World.Filled | game_map.py:10-14 | `np.full`: a width-by-height grid with the fill value in every cell |
| World.SelectFirstTrue | game_map.py:31-35 | `np.select` picks the choice of the first true condition |
| World.SelectNoneTrue | game_map.py:31-35 | `np.select` falls back to the default when no condition holds |
| World.CellGraphic | game_map.py:20-35 | a visible cell shows its light graphic, an explored but unseen cell its dark graphic, any other cell the shroud; visibility wins over exploration |
| World.GameMap.constructor | game_map.py:8-14 | a new map is width by height, all wall, nothing visible or explored, with no entities |
| World.GameMap.InBounds | game_map.py:16-18 | true exactly when (x, y) indexes a cell of the tile grid, and then of the visibility grids too |
| World.GameMap.Render | game_map.py:20-35 | every console cell inside the map's rectangle gets that cell's graphic; every other console cell keeps its old value |
| World.Entity.constructor | entity.py:17-35 | the fields are the arguments (or their defaults); given a map, the entity joins that map's entity set |
| World.Entity.Spawn | entity.py:37-44 | the result is a fresh copy with the same glyph, colour, name and blocking flag, at (x, y) on the given map, which gains the copy; the original is unchanged |
| World.Entity.Place | entity.py:46-55 | as written: sets the position; given a map, leaves the current map's set (KeyError if not in it), then always fails with AttributeError without joining the new map |
| World.Entity.PlaceFixed | entity.py:46-55 | as intended: given a map, the entity leaves the old map's set, records the new map and joins its set |
| World.Entity.Move | entity.py:57-60 | the position shifts by (dx, dy); nothing else changes |
| World.PlaceAcrossMapsLosesEntity | entity.py:46-55 | as written, placing an entity from one map onto another raises AttributeError and leaves it in neither map's set |
| World.PlaceAcrossMapsFixed | entity.py:46-55 | with the intended line, the same call succeeds and the entity is in the new map's set only |
| Actions.Destination | actions.py:28-44 | a move ends on the target cell exactly when that cell is on the map and walkable; otherwise the mover stays where it was |
| Actions.Perform | actions.py:11-44 | the base action is not implemented; escape quits; a movement changes only the mover's position, to its destination |
| Ai.Chebyshev | components/ai.py:58-60 | the distance is max(abs(dx), abs(dy)): zero only at the same cell, at most one exactly for neighbouring cells |
| Ai.BaseCost | components/ai.py:27-28 | the cost grid starts at 1 on walkable cells and 0 on the others |
| Ai.Penalize | components/ai.py:30-37 | one blocking entity adds 10 to its cell when that cell's cost is non-zero and changes no other cell |
| Ai.PenalizedCost | components/ai.py:30-37 | the intended cost grid: each passable cell gets 10 extra per blocking entity on it; impassable cells stay 0 |
| Ai.BlockersAtAdd | components/ai.py:30-37 | counting one more entity adds one blocker at its own cell, if it blocks, and none anywhere else |
| Ai.BlockersArePenalized | components/ai.py:30-37 | every blocking entity on a plain passable cell makes that cell cost at least 11 |
| Ai.AsWrittenMissesSecondBlocker | components/ai.py:30-49 | with the return inside the loop, of two blockers on different cells the one visited second gets no penalty; the intended grid penalises both |
| Ai.FirstOnlyCost | components/ai.py:30-37 | the grid the as-written search uses: only the first entity visited can add 10, to its own cell and only when that cell is passable; every other cell keeps its base cost |
| Ai.Consume | components/ai.py:68-74 | a non-empty cached path yields a movement onto its first waypoint and drops that waypoint; an empty path yields a wait and stays empty |
| Ai.TrailFollowsRoute | components/ai.py:68-72 | following a cached path turn by turn visits exactly its waypoints, in order |
| Ai.HostileEnemy.constructor | components/ai.py:52-54 | a new AI has an empty cached path |
| Ai.HostileEnemy.GetPathTo | components/ai.py:20-49 | as intended: the route is the pathfinder's result over the grid with every blocker penalised, from the actor's cell, without its first cell |
| Ai.HostileEnemy.GetPathToAsWritten | components/ai.py:20-49 | as written: with no entities there is no result at all; otherwise the search runs on a grid where only the first entity visited was considered |
| Ai.HostileEnemy.Perform | components/ai.py:56-74 | seen and adjacent: melee toward the target, path kept; seen and farther: a fresh route replaces the path, then one step of it; unseen: one step of the old path, or wait |
| Ai.HostileEnemy.FollowPath | components/ai.py:68-74 | a non-empty cached path loses its first waypoint and the action steps onto that waypoint; an empty path gives a wait and stays empty |
| MessageLogs.DisplayText | message_log.py:16-21 | a count of at most one leaves the plain text as it is; a larger count keeps the plain text as a prefix and closes with ")" |
| MessageLogs.Message.FullText | message_log.py:16-21 | a message seen once shows its plain text; a repeated one shows its plain text followed by " (x" |
| MessageLogs.Decimal | message_log.py:20 | the count is written in decimal: non-empty, digits only, no leading zero |
| MessageLogs.DecimalRoundTrip | message_log.py:20 | reading the decimal form back gives the number |
| MessageLogs.DisplayTextShowsCount | message_log.py:16-21 | a repeated message shows its plain text followed by " (x", its exact count and ")" |
| MessageLogs.DisplayTextOnce | message_log.py:16-21 | a message seen once shows just its plain text |
| MessageLogs.Message.constructor | message_log.py:10-14 | a new message has its text and colour and count 1 |
| MessageLogs.Stacked | message_log.py:40-43 | an add grows the log by at most one entry, the last entry carries the added text, every entry before the old last one is kept, and without stacking a count-1 entry is appended |
| MessageLogs.StackedEffect | message_log.py:28-43 | adding the newest entry's text with stacking on raises that entry's count by one and leaves the rest; otherwise a count-1 entry is appended |
| MessageLogs.StackingKeepsNoAdjacentRepeats | message_log.py:40-43 | with stacking on, two neighbouring entries never share a text |
| MessageLogs.StackingCountsEveryAdd | message_log.py:40-43 | every add, stacked or appended, raises the total count by exactly one |
| MessageLogs.RunLengthSnoc | message_log.py:40-43 | the run-length encoding of the adds absorbs one more add exactly as stacking does |
| MessageLogs.ReplayIsRunLength | message_log.py:40-43 | a log built by stacked adds is the run-length encoding of the added texts |
| MessageLogs.MessageLog.constructor | message_log.py:25-26 | a new log is empty |
| MessageLogs.MessageLog.AddMessage | message_log.py:28-43 | the log's entries become the stacked result; older messages are untouched and no message object is listed twice |
| MessageLogs.NewestFirstSplit | message_log.py:80-83 | newer messages' lines are all visited before older messages' lines |
| MessageLogs.NewestLineFirst | message_log.py:80-84 | the first line printed is the last wrapped line of the newest message |
| MessageLogs.MessageLog.PrintBottomUp | message_log.py:81-87 | one message's wrapped lines are printed last line first on rising rows; printing stops right after the row-0 line |
| MessageLogs.MessageLog.RenderMessages | message_log.py:60-87 | the print calls are the first max(height, 1) lines, newest message and last line first, placed from row y + height - 1 upward |
| MessageLogs.MessageLog.Render | message_log.py:45-58 | rendering the log renders all of its messages |
| InputHandlers.MoveKeysAreUnitSteps | input_handlers.py:13-41 | every move key steps exactly one cell in one of the eight directions |
| InputHandlers.KeyTablesDisjoint | input_handlers.py:13-47 | no key both moves and waits; ESCAPE and v are in neither table |
| InputHandlers.EveryDirectionHasKeys | input_handlers.py:13-41 | the arrow and paging keys, the keypad and the vi keys each cover all eight directions |
| InputHandlers.MainGameKeyDown | input_handlers.py:84-100 | a move key gives a bump in its direction, a wait key a wait, ESCAPE an escape; v opens the history without an action; any other key gives nothing |
| InputHandlers.MainGameActionsAreSmall | input_handlers.py:84-100 | every action from the main handler is a one-cell bump, a wait or an escape |
| InputHandlers.GameOverKeyDown | input_handlers.py:112-120 | only ESCAPE yields an action, and that action is escape |
| InputHandlers.Scrolled | input_handlers.py:158-165 | on a non-empty log the new cursor is a message index; on an empty log it is -1 or 0 |
| InputHandlers.CursorAfter | input_handlers.py:157-169 | a cursor key, HOME or END leaves the cursor in range; any other key leaves it unchanged |
| InputHandlers.ScrollStaysInRange | input_handlers.py:158-165 | scrolling keeps the cursor on a message index, or at -1 or 0 for an empty log |
| InputHandlers.ScrollMovesTowardAdjust | input_handlers.py:165 | when it does not wrap, scrolling moves in the adjust's direction and no further than the adjust |
| InputHandlers.UpDownInverse | input_handlers.py:122-127 | one step up then one down, or down then up, returns to the same cursor, across the wrap-arounds too |
| InputHandlers.CursorAfterInRange | input_handlers.py:157-169 | every key keeps the cursor in range; HOME goes to the first message and END to the last |
| InputHandlers.SliceTo | input_handlers.py:153 | Python's `messages[:stop]`, with a negative stop counting from the end |
| InputHandlers.HistoryEndsAtCursor | input_handlers.py:153 | with the cursor in range, the history shows exactly the messages up to and including the cursor |
| InputHandlers.HistoryViewer.constructor | input_handlers.py:132-135 | the viewer records the log's length and starts at the newest message |
| InputHandlers.HistoryViewer.KeyDown | input_handlers.py:157-171 | cursor keys, HOME and END move the cursor and keep the viewer, and the cursor stays in range; any other key leaves the cursor and returns to the main handler |
| InputHandlers.HistoryViewer.RenderHistory | input_handlers.py:137-155 | the history box prints the messages up to the cursor, inside a console six cells smaller than the screen, within its one-cell frame |

## Left out

- Toolkit plumbing is I/O and UI glue and is not modelled:
  - event waiting, `convert_event` and `dispatch`;
  - `ev_quit` and `ev_mousemotion`;
  - the frame and title drawn by `draw_frame` and `print_box`, and the `blit` onto the screen;
  - `EventHandler.on_render`.
- The pathfinder is a parameter. Nothing is claimed about the routes it finds.
- `textwrap.wrap` is a parameter.
- numpy dtypes are records, and grids are sequences of sequences indexed [x][y].
- Ai.HostileEnemy.GetPathTo: does not model the `int8` cost grid, which would wrap around once 13 or more blockers stand on one cell.
- Ai.HostileEnemy.GetPathTo: requires every blocking entity to stand on the map. A negative index would wrap around in numpy, and that is not modelled.
- Ai.HostileEnemy.Perform: returns the action it chooses instead of performing it. The action is built from (dx, dy) alone, because `MovementAction` takes no entity even though `components/ai.py:70` passes one.
- Ai.HostileEnemy.Perform: requires the actor to be on the map.
- Ai.HostileEnemy.Perform: uses the corrected search (`GetPathTo`), because the as-written search's grid depends on which entity Python's set iteration visits first, and that order is unspecified. So `Perform` does not capture the as-written first-entity-only grid. It also misses the as-written path for a map with no entities: there `get_path_to` returns None, `self.path = None` (`components/ai.py:66`), and the `if self.path` test (`components/ai.py:68`) then falls through to the wait.
- Ai.HostileEnemy.GetPathTo: requires `entity.gamemap != null`. The source raises AttributeError at `components/ai.py:28` when the actor has no map, and that error path is not modelled. The same holds for Ai.HostileEnemy.GetPathToAsWritten and Ai.HostileEnemy.Perform.
- Ai.HostileEnemy.GetPathToAsWritten: requires `entity.gamemap != null`, for the reason in the line above.
- Ai.HostileEnemy.constructor: `BaseAI` and `HostileEnemy` are one class. `BaseAI.perform` returns a `NotImplementedError` instead of raising it; that is not modelled.
- Actions.Perform: covers only the base, escape and movement actions. Bump, wait and melee are used as values only: `actions.py` defines none of them, so the imports at `input_handlers.py:8` (`BumbAction`, `WaitAction`) and `components/ai.py:8` (`MeleeAction`, `WaitAction`) name classes that do not exist.
- Actions.Perform: `SystemExit` is the `Quit` outcome and `NotImplementedError` the `NotImplemented` outcome.
- World.Entity.Spawn: `copy.deepcopy` is a field-wise copy. The deep copy of the map reference, which Python would clone too before overwriting it, is not modelled.
- World.GameMap.constructor: takes `nat` sizes. `np.full` (`game_map.py:11-14`) raises ValueError on a negative width or height, and that error path is not modelled.
- World.GameMap.constructor: `game_map.py` never creates the `entities` set that the entity code uses. The model gives every map an empty set.
- World.GameMap.Render: requires the console to be at least as large as the map. numpy would raise on a smaller one.
- World.Entity.constructor: the field Python calls `char` is called `glyph`, because `char` is a Dafny type name.
- TileTypes.NewTile: takes booleans where the source annotates `int`.
- MessageLogs.MessageLog.AddMessage: the colour is a required argument. Its default, `color.white`, comes from `color.py`, which is not part of this model.
- InputHandlers.MainGameKeyDown: opening the history viewer, which the source does by assigning `engine.event_handler`, is the returned `ToHistory` value.
- InputHandlers.HistoryViewer.KeyDown: returning to the main handler is the returned `ToMain` value.
- InputHandlers.HistoryViewer.RenderHistory: the print calls are in the log console's own coordinates. The blit at (3, 3) is not modelled.
- Engine and `base_component.py` are not part of this model.

## Findings

| source | as written | input that shows it | evidently intended | confidence | as-written member | corrected member |
|---|---|---|---|---|---|---|
| entity.py:54 | `self.gamemap.gamemap` reads an attribute a map does not have, so `place` with a map always raises AttributeError after removing the entity from its old map | an entity on map A placed with `place(1, 1, B)` ends up in neither A's nor B's entity set | `self.gamemap = gamemap`, so the entity joins B | high (not executed) | World.Entity.Place, World.PlaceAcrossMapsLosesEntity | World.Entity.PlaceFixed, World.PlaceAcrossMapsFixed |
| components/ai.py:39-49 | the graph, the search and the `return` are indented inside the entity loop | two blocking entities on distinct walkable cells: the one visited second keeps cost 1; a map with no entities returns None | build the graph and search once, after every entity's penalty is added | high (not executed) | Ai.HostileEnemy.GetPathToAsWritten, Ai.AsWrittenMissesSecondBlocker | Ai.HostileEnemy.GetPathTo, Ai.PenalizedCost |
