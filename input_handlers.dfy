/**
 * Input handlers (input_handlers.py): the key tables, the main and
 * game-over key handlers, and the message-history viewer with its
 * wrapping, clamping cursor. Switching `engine.event_handler` is returned
 * as a `Next` value instead of being assigned.
 */
module InputHandlers {
  import opened Wrappers
  import opened Actions
  import opened MessageLogs

  /** The key symbols the handlers look at; every other key is `Other`. */
  datatype KeySym =
    | Up | Down | Left | Right | Home | End | PageUp | PageDown
    | Kp1 | Kp2 | Kp3 | Kp4 | Kp5 | Kp6 | Kp7 | Kp8 | Kp9
    | H | J | K | L | Y | U | B | N
    | Period | Clear | Escape | V
    | Other

  /** MOVE_KEYS: arrow and paging keys, the numeric keypad and the vi keys, each to a step (dx, dy). */
  const MoveKeys: map<KeySym, (int, int)> := map[
    Up := (0, -1), Down := (0, 1), Left := (-1, 0), Right := (1, 0),
    Home := (-1, -1), End := (-1, 1), PageUp := (1, -1), PageDown := (1, 1),
    Kp1 := (-1, 1), Kp2 := (0, 1), Kp3 := (1, 1), Kp4 := (-1, 0),
    Kp6 := (1, 0), Kp7 := (-1, -1), Kp8 := (0, -1), Kp9 := (1, -1),
    H := (-1, 0), J := (0, 1), K := (0, -1), L := (1, 0),
    Y := (-1, -1), U := (1, -1), B := (-1, 1), N := (1, 1)
  ]

  /** WAIT_KEYS. */
  const WaitKeys: set<KeySym> := {Period, Kp5, Clear}

  /** CURSOR_Y_KEYS: how far each key moves the history cursor. */
  const CursorYKeys: map<KeySym, int> := map[Up := -1, Down := 1, PageUp := -10, PageDown := 10]

  /** One of the eight steps to a neighbouring cell. */
  predicate UnitStep(d: (int, int))
  {
    -1 <= d.0 <= 1 && -1 <= d.1 <= 1 && d != (0, 0)
  }

  /** Every move key moves exactly one cell, in one of the eight directions. */
  lemma MoveKeysAreUnitSteps()
    ensures forall k :: k in MoveKeys ==> UnitStep(MoveKeys[k])
  {}

  /** No key both moves and waits, and neither table holds ESCAPE or v. */
  lemma KeyTablesDisjoint()
    ensures forall k :: k in MoveKeys ==> k !in WaitKeys
    ensures Escape !in MoveKeys && Escape !in WaitKeys && V !in MoveKeys && V !in WaitKeys
  {}

  /** Each of the three key families (arrows and paging, keypad, vi) reaches all eight directions. */
  lemma EveryDirectionHasKeys(d: (int, int))
    requires UnitStep(d)
    ensures exists k :: k in {Up, Down, Left, Right, Home, End, PageUp, PageDown} && MoveKeys[k] == d
    ensures exists k :: k in {Kp1, Kp2, Kp3, Kp4, Kp6, Kp7, Kp8, Kp9} && MoveKeys[k] == d
    ensures exists k :: k in {H, J, K, L, Y, U, B, N} && MoveKeys[k] == d
  {
    if d == (0, -1) {
      assert MoveKeys[Up] == d && MoveKeys[Kp8] == d && MoveKeys[K] == d;
    } else if d == (0, 1) {
      assert MoveKeys[Down] == d && MoveKeys[Kp2] == d && MoveKeys[J] == d;
    } else if d == (-1, 0) {
      assert MoveKeys[Left] == d && MoveKeys[Kp4] == d && MoveKeys[H] == d;
    } else if d == (1, 0) {
      assert MoveKeys[Right] == d && MoveKeys[Kp6] == d && MoveKeys[L] == d;
    } else if d == (-1, -1) {
      assert MoveKeys[Home] == d && MoveKeys[Kp7] == d && MoveKeys[Y] == d;
    } else if d == (-1, 1) {
      assert MoveKeys[End] == d && MoveKeys[Kp1] == d && MoveKeys[B] == d;
    } else if d == (1, -1) {
      assert MoveKeys[PageUp] == d && MoveKeys[Kp9] == d && MoveKeys[U] == d;
    } else {
      assert MoveKeys[PageDown] == d && MoveKeys[Kp3] == d && MoveKeys[N] == d;
    }
  }

  /** Which handler receives the next event: the same one, the main game's, or a new history viewer. */
  datatype Next = Stay | ToMain | ToHistory

  /** What a key press yields: the action for the player, if any, and the next handler. */
  datatype KeyResult = KeyResult(action: Option<Action>, next: Next)

  /**
   * MainGameEventHandler.ev_keydown: a move key bumps in its direction, a
   * wait key waits, ESCAPE escapes, v opens the history viewer without an
   * action, and any other key does nothing.
   */
  function MainGameKeyDown(key: KeySym): (r: KeyResult)
    ensures r.next != ToMain
    ensures r.next == ToHistory <==> key == V
    ensures (r.action.Some? && r.action.value.BumpAction?) <==> key in MoveKeys
    ensures key in MoveKeys ==> r.action == Some(BumpAction(MoveKeys[key].0, MoveKeys[key].1))
    ensures r.action == Some(WaitAction) <==> key in WaitKeys
    ensures r.action == Some(EscapeAction) <==> key == Escape
    ensures r.action == None <==> key !in MoveKeys && key !in WaitKeys && key != Escape
  {
    if key in MoveKeys then
      var (dx, dy) := MoveKeys[key];
      KeyResult(Some(BumpAction(dx, dy)), Stay)
    else if key in WaitKeys then
      KeyResult(Some(WaitAction), Stay)
    else if key == Escape then
      KeyResult(Some(EscapeAction), Stay)
    else if key == V then
      KeyResult(None, ToHistory)
    else
      KeyResult(None, Stay)
  }

  /** Every action the main handler yields is a single step, a wait or an escape. */
  lemma MainGameActionsAreSmall(key: KeySym)
    ensures var r := MainGameKeyDown(key);
            r.action.Some? ==>
              (r.action.value.BumpAction? && UnitStep((r.action.value.dx, r.action.value.dy)))
              || r.action.value == WaitAction || r.action.value == EscapeAction
  {
    MoveKeysAreUnitSteps();
  }

  /** GameOverEventHandler.ev_keydown: only ESCAPE does anything. */
  function GameOverKeyDown(key: KeySym): (r: Option<Action>)
    ensures r.Some? <==> key == Escape
    ensures r.Some? ==> r.value == EscapeAction
  {
    if key == Escape then Some(EscapeAction) else None
  }

  /**
   * The cursor after a move by `adjust` (input_handlers.py:160-165): up
   * from the first message wraps to the last, down from the last wraps to
   * the first, and any other move is clamped to [0, logLength - 1].
   */
  function Scrolled(cursor: int, logLength: int, adjust: int): (c: int)
    ensures logLength >= 1 ==> 0 <= c < logLength
    ensures logLength == 0 ==> c == -1 || c == 0
  {
    if adjust < 0 && cursor == 0 then logLength - 1
    else if adjust > 0 && cursor == logLength - 1 then 0
    else Max(0, Min(cursor + adjust, logLength - 1))
  }

  /**
   * The cursor positions the viewer can be in: an index of the log, or,
   * for an empty log, -1 (where it starts) or 0 (where clamping puts it).
   */
  predicate CursorInRange(cursor: int, logLength: int)
  {
    if logLength >= 1 then 0 <= cursor < logLength else logLength == 0 && (cursor == -1 || cursor == 0)
  }

  /** Scrolling keeps the cursor in range. */
  lemma ScrollStaysInRange(cursor: int, logLength: int, adjust: int)
    requires CursorInRange(cursor, logLength)
    ensures CursorInRange(Scrolled(cursor, logLength, adjust), logLength)
  {}

  /** Without a wrap, scrolling moves in the direction of `adjust` and never further than it asks. */
  lemma ScrollMovesTowardAdjust(cursor: int, logLength: int, adjust: int)
    requires logLength >= 1 && 0 <= cursor < logLength
    requires !(adjust < 0 && cursor == 0) && !(adjust > 0 && cursor == logLength - 1)
    ensures var c := Scrolled(cursor, logLength, adjust);
            (adjust < 0 ==> cursor + adjust <= c < cursor)
            && (adjust > 0 ==> cursor < c <= cursor + adjust)
            && (adjust == 0 ==> c == cursor)
  {}

  /** One step up and one step down undo each other, wrap-arounds included. */
  lemma UpDownInverse(cursor: int, logLength: int)
    requires logLength >= 1 && 0 <= cursor < logLength
    ensures Scrolled(Scrolled(cursor, logLength, CursorYKeys[Up]), logLength, CursorYKeys[Down]) == cursor
    ensures Scrolled(Scrolled(cursor, logLength, CursorYKeys[Down]), logLength, CursorYKeys[Up]) == cursor
  {}

  /** The cursor after `key` in the history viewer: scrolling, HOME to the first message, END to the last. */
  function CursorAfter(cursor: int, logLength: int, key: KeySym): (c: int)
    ensures (key in CursorYKeys || key == Home || key == End) && logLength >= 0 ==> CursorInRange(c, logLength)
    ensures !(key in CursorYKeys || key == Home || key == End) ==> c == cursor
  {
    if key in CursorYKeys then Scrolled(cursor, logLength, CursorYKeys[key])
    else if key == Home then 0
    else if key == End then logLength - 1
    else cursor
  }

  /** Every key keeps the cursor in range; HOME and END reach the two ends. */
  lemma CursorAfterInRange(cursor: int, logLength: int, key: KeySym)
    requires CursorInRange(cursor, logLength)
    ensures CursorInRange(CursorAfter(cursor, logLength, key), logLength)
    ensures key == Home ==> CursorAfter(cursor, logLength, key) == 0
    ensures key == End ==> CursorAfter(cursor, logLength, key) == logLength - 1
  {
    if key in CursorYKeys {
      ScrollStaysInRange(cursor, logLength, CursorYKeys[key]);
    }
  }

  /** Python's `ms[:stop]`: a negative stop counts from the end. */
  function SliceTo<T>(ms: seq<T>, stop: int): (r: seq<T>)
    ensures stop >= 0 ==> r == ms[..Min(stop, |ms|)]
    ensures stop < 0 ==> r == ms[..Max(0, |ms| + stop)]
  {
    if stop >= 0 then ms[..Min(stop, |ms|)] else ms[..Max(0, |ms| + stop)]
  }

  /** With the cursor in range over the whole log, the history shows exactly the messages up to the cursor. */
  lemma HistoryEndsAtCursor<T>(ms: seq<T>, cursor: int)
    requires CursorInRange(cursor, |ms|)
    ensures ms == [] ==> SliceTo(ms, cursor + 1) == []
    ensures ms != [] ==> SliceTo(ms, cursor + 1) == ms[..cursor + 1] && SliceTo(ms, cursor + 1)[cursor] == ms[cursor]
  {}

  /** HistoryViewer: a cursor over the message log, fixed to the log's length when the viewer opened. */
  class HistoryViewer {
    const log: MessageLog
    const logLength: int
    var cursor: int

    /** The viewer opens on the newest message. */
    constructor (log: MessageLog)
      ensures this.log == log && logLength == |log.messages| && cursor == logLength - 1
      ensures CursorInRange(cursor, logLength)
    {
      this.log := log;
      logLength := |log.messages|;
      cursor := |log.messages| - 1;
    }

    /**
     * ev_keydown: cursor keys, HOME and END move the cursor and keep the
     * viewer; any other key leaves the cursor and returns to the main game.
     */
    method KeyDown(key: KeySym) returns (next: Next)
      modifies this`cursor
      ensures cursor == CursorAfter(old(cursor), logLength, key)
      ensures next == Stay <==> key in CursorYKeys || key == Home || key == End
      ensures next != Stay ==> next == ToMain && cursor == old(cursor)
      ensures old(CursorInRange(cursor, logLength)) ==> CursorInRange(cursor, logLength)
    {
      if CursorInRange(cursor, logLength) {
        CursorAfterInRange(cursor, logLength, key);
      }
      next := Stay;
      if key in CursorYKeys {
        var adjust := CursorYKeys[key];
        if adjust < 0 && cursor == 0 {
          cursor := logLength - 1;
        } else if adjust > 0 && cursor == logLength - 1 {
          cursor := 0;
        } else {
          cursor := Max(0, Min(cursor + adjust, logLength - 1));
        }
      } else if key == Home {
        cursor := 0;
      } else if key == End {
        cursor := logLength - 1;
      } else {
        next := ToMain;
      }
    }

    /**
     * on_render's history window: a log console six cells smaller than the
     * screen each way, with the messages up to the cursor printed inside
     * its frame, at (1, 1) in a box two cells smaller than the console.
     */
    method RenderHistory(consoleWidth: int, consoleHeight: int, wrap: Wrapper) returns (printed: seq<PrintCall>)
      ensures var logWidth, logHeight := consoleWidth - 6, consoleHeight - 6;
              printed == Shown(1, 1, logHeight - 2, NewestFirst(SliceTo(log.messages, cursor + 1), logWidth - 2, wrap))
    {
      var logWidth, logHeight := consoleWidth - 6, consoleHeight - 6;
      printed := MessageLog.RenderMessages(1, 1, logWidth - 2, logHeight - 2, SliceTo(log.messages, cursor + 1), wrap);
    }
  }
}
