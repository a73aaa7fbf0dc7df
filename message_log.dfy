/**
 * The message log (message_log.py): messages with a repeat count, the
 * stacking rule of `add_message`, and the bottom-up line placement of
 * `render_messages`. Word wrapping is a parameter.
 */
module MessageLogs {
  import opened TileTypes

  /** The digit character for d. */
  function Digit(d: nat): char
    requires d < 10
  {
    (48 + d) as char
  }

  /** n in decimal, as Python's str() writes a non-negative int: digits only, no leading zero. */
  function Decimal(n: nat): (s: string)
    ensures |s| >= 1
    ensures forall i :: 0 <= i < |s| ==> '0' <= s[i] <= '9'
    ensures n > 0 ==> s[0] != '0'
    decreases n
  {
    if n < 10 then [Digit(n)] else Decimal(n / 10) + [Digit(n % 10)]
  }

  /** The value of a string of decimal digits. */
  function ParseDecimal(s: string): nat
    requires forall i :: 0 <= i < |s| ==> '0' <= s[i] <= '9'
  {
    if s == [] then 0 else ParseDecimal(s[..|s| - 1]) * 10 + (s[|s| - 1] as int - 48)
  }

  /** Reading the decimal form back gives the number. */
  lemma {:induction false} DecimalRoundTrip(n: nat)
    ensures ParseDecimal(Decimal(n)) == n
  {
    if n >= 10 {
      var s := Decimal(n);
      assert s[..|s| - 1] == Decimal(n / 10);
      DecimalRoundTrip(n / 10);
    }
  }

  /** The text a message shows: its plain text, followed by " (xN)" once it has been repeated. */
  function DisplayText(plainText: string, count: int): (s: string)
    ensures count <= 1 ==> s == plainText
    ensures count > 1 ==> |s| > |plainText| + 4 && s[..|plainText|] == plainText && s[|s| - 1] == ')'
  {
    if count > 1 then plainText + " (x" + Decimal(count) + ")" else plainText
  }

  /** A repeated message's display text starts with its plain text and shows its exact count. */
  lemma DisplayTextShowsCount(plainText: string, count: int)
    requires count > 1
    ensures var s, n := DisplayText(plainText, count), |plainText|;
            |s| == n + |Decimal(count)| + 4 && s[..n] == plainText && s[n..n + 3] == " (x" &&
            s[|s| - 1] == ')' && ParseDecimal(s[n + 3..|s| - 1]) == count
  {
    var s, n := DisplayText(plainText, count), |plainText|;
    assert s[n + 3..|s| - 1] == Decimal(count);
    DecimalRoundTrip(count);
  }

  /** A message shown once has exactly its plain text. */
  lemma DisplayTextOnce(plainText: string)
    ensures DisplayText(plainText, 1) == plainText
  {}

  class Message {
    var plainText: string
    var fg: Rgb
    var count: int

    constructor (text: string, fg: Rgb)
      ensures plainText == text && this.fg == fg && count == 1
    {
      plainText := text;
      this.fg := fg;
      count := 1;
    }

    /** full_text: the plain text, with " (xN)" appended once the message has been repeated. */
    function FullText(): (s: string)
      reads this
      ensures count <= 1 ==> s == plainText
      ensures count > 1 ==> |s| > |plainText| + 4 && s[..|plainText|] == plainText && s[|plainText|..|plainText| + 3] == " (x"
    {
      DisplayText(plainText, count)
    }
  }

  /** A message's state as a value. */
  datatype Entry = Entry(text: string, fg: Rgb, count: int)

  /** The entries of a list of messages. */
  function EntriesOf(ms: seq<Message>): (es: seq<Entry>)
    reads ms
    ensures |es| == |ms|
    ensures forall i :: 0 <= i < |ms| ==> es[i] == Entry(ms[i].plainText, ms[i].fg, ms[i].count)
  {
    seq(|ms|, i requires 0 <= i < |ms| reads ms => Entry(ms[i].plainText, ms[i].fg, ms[i].count))
  }

  /**
   * The log after adding `text`: with stacking on and the same text as the
   * newest entry, that entry's count goes up by one; otherwise a new entry
   * with count 1 is appended.
   */
  function Stacked(log: seq<Entry>, text: string, fg: Rgb, stack: bool): (r: seq<Entry>)
    ensures |log| <= |r| <= |log| + 1
    ensures |r| >= 1 && r[|r| - 1].text == text
    ensures |log| > 0 ==> r[..|log| - 1] == log[..|log| - 1]
    ensures !stack ==> r == log + [Entry(text, fg, 1)]
  {
    if stack && |log| > 0 && text == log[|log| - 1].text
    then log[|log| - 1 := log[|log| - 1].(count := log[|log| - 1].count + 1)]
    else log + [Entry(text, fg, 1)]
  }

  /** The two outcomes of one add, entry by entry. */
  lemma StackedEffect(log: seq<Entry>, text: string, fg: Rgb, stack: bool)
    ensures var r, n := Stacked(log, text, fg, stack), |log|;
            if stack && n > 0 && text == log[n - 1].text then
              |r| == n && r[..n - 1] == log[..n - 1] &&
              r[n - 1].text == log[n - 1].text && r[n - 1].fg == log[n - 1].fg &&
              r[n - 1].count == log[n - 1].count + 1
            else
              |r| == n + 1 && r[..n] == log && r[n] == Entry(text, fg, 1)
  {}

  /** No two neighbouring entries have the same text. */
  predicate NoAdjacentRepeats(log: seq<Entry>)
  {
    forall i :: 0 < i < |log| ==> log[i - 1].text != log[i].text
  }

  /** Adding with stacking on never creates two neighbouring entries with the same text. */
  lemma StackingKeepsNoAdjacentRepeats(log: seq<Entry>, text: string, fg: Rgb)
    requires NoAdjacentRepeats(log)
    ensures NoAdjacentRepeats(Stacked(log, text, fg, true))
  {}

  /** The number of adds the entries account for. */
  function TotalCount(log: seq<Entry>): int
  {
    if log == [] then 0 else TotalCount(log[..|log| - 1]) + log[|log| - 1].count
  }

  /** Every add, stacked or appended, is counted exactly once. */
  lemma StackingCountsEveryAdd(log: seq<Entry>, text: string, fg: Rgb, stack: bool)
    ensures TotalCount(Stacked(log, text, fg, stack)) == TotalCount(log) + 1
  {
    var r := Stacked(log, text, fg, stack);
    if stack && |log| > 0 && text == log[|log| - 1].text {
      assert r[..|r| - 1] == log[..|log| - 1];
    } else {
      assert r[..|r| - 1] == log;
    }
  }

  /** One call to add_message: the text and colour it was given. */
  datatype Added = Added(text: string, fg: Rgb)

  /** A log built from empty by adding each of `adds` in turn with stacking on. */
  function Replay(adds: seq<Added>): seq<Entry>
  {
    if adds == [] then []
    else
      var a := adds[|adds| - 1];
      Stacked(Replay(adds[..|adds| - 1]), a.text, a.fg, true)
  }

  /** Puts an older add in front of the encoding of the later ones, joining a run of equal text. */
  function Merge(first: Added, rest: seq<Entry>): seq<Entry>
  {
    if rest != [] && rest[0].text == first.text
    then [Entry(first.text, first.fg, rest[0].count + 1)] + rest[1..]
    else [Entry(first.text, first.fg, 1)] + rest
  }

  /**
   * Run-length encoding of `adds`, built from the oldest add: each run of
   * equal texts becomes one entry with the run's length and its first colour.
   */
  function RunLength(adds: seq<Added>): seq<Entry>
  {
    if adds == [] then [] else Merge(adds[0], RunLength(adds[1..]))
  }

  /** Joining at the front and stacking at the back do not interfere. */
  lemma MergeThenStack(first: Added, rest: seq<Entry>, a: Added)
    ensures Merge(first, Stacked(rest, a.text, a.fg, true)) == Stacked(Merge(first, rest), a.text, a.fg, true)
  {
    if rest == [] {
      assert Merge(first, rest) == [Entry(first.text, first.fg, 1)];
    } else if a.text == rest[|rest| - 1].text {
      MergeThenBump(first, rest, a);
    } else {
      MergeThenAppend(first, rest, a);
    }
  }

  /** MergeThenStack when `a` stacks onto the newest entry of `rest`. */
  lemma MergeThenBump(first: Added, rest: seq<Entry>, a: Added)
    requires rest != [] && a.text == rest[|rest| - 1].text
    ensures Merge(first, Stacked(rest, a.text, a.fg, true)) == Stacked(Merge(first, rest), a.text, a.fg, true)
  {
    var n := |rest|;
    var m := Merge(first, rest);
    assert |m| >= n && m[|m| - 1].text == rest[n - 1].text;
    var bumped := rest[n - 1].(count := rest[n - 1].count + 1);
    if n == 1 {
      assert rest[n - 1 := bumped] == [bumped];
    } else {
      assert rest[n - 1 := bumped][0] == rest[0];
      assert rest[n - 1 := bumped][1..] == rest[1..][n - 2 := bumped];
    }
  }

  /** MergeThenStack when `a` starts a new entry after `rest`. */
  lemma MergeThenAppend(first: Added, rest: seq<Entry>, a: Added)
    requires rest != [] && a.text != rest[|rest| - 1].text
    ensures Merge(first, Stacked(rest, a.text, a.fg, true)) == Stacked(Merge(first, rest), a.text, a.fg, true)
  {
    var m := Merge(first, rest);
    assert |m| >= |rest| && m[|m| - 1].text == rest[|rest| - 1].text;
    var added := Entry(a.text, a.fg, 1);
    assert (rest + [added])[0] == rest[0];
    assert (rest + [added])[1..] == rest[1..] + [added];
  }

  /** Run-length encoding absorbs one more add at the end exactly as stacking does. */
  lemma {:induction false} RunLengthSnoc(adds: seq<Added>, a: Added)
    ensures RunLength(adds + [a]) == Stacked(RunLength(adds), a.text, a.fg, true)
  {
    if adds == [] {
      assert [a][1..] == [];
    } else {
      var h, t := adds[0], adds[1..];
      assert (adds + [a])[0] == h && (adds + [a])[1..] == t + [a];
      RunLengthSnoc(t, a);
      MergeThenStack(h, RunLength(t), a);
    }
  }

  /** With stacking on, the log holds the run-length encoding of everything added. */
  lemma {:induction false} ReplayIsRunLength(adds: seq<Added>)
    ensures Replay(adds) == RunLength(adds)
  {
    if adds != [] {
      var init, a := adds[..|adds| - 1], adds[|adds| - 1];
      ReplayIsRunLength(init);
      assert adds == init + [a];
      RunLengthSnoc(init, a);
    }
  }

  /** One line of wrapped text with its colour. */
  datatype Line = Line(text: string, fg: Rgb)

  /** One console print call: the position, the string and its colour. */
  datatype PrintCall = PrintCall(x: int, y: int, text: string, fg: Rgb)

  /** The foreign word wrapper: a text and a width to the lines of the wrapped text. */
  type Wrapper = (string, int) -> seq<string>

  /** Wrapped lines `w` in the order they are printed, last line first, each in colour fg. */
  function BottomUp(w: seq<string>, fg: Rgb): (ls: seq<Line>)
    ensures |ls| == |w| && forall i :: 0 <= i < |w| ==> ls[i] == Line(w[|w| - 1 - i], fg)
  {
    seq(|w|, i requires 0 <= i < |w| => Line(w[|w| - 1 - i], fg))
  }

  /** A message's wrapped lines, last line first. */
  function LinesOf(m: Message, width: int, wrap: Wrapper): seq<Line>
    reads m
  {
    BottomUp(wrap(m.FullText(), width), m.fg)
  }

  /** Every line of `ms` in the order render_messages visits them: newest message first, bottom line first. */
  function NewestFirst(ms: seq<Message>, width: int, wrap: Wrapper): seq<Line>
    reads ms
  {
    if ms == [] then []
    else LinesOf(ms[|ms| - 1], width, wrap) + NewestFirst(ms[..|ms| - 1], width, wrap)
  }

  /** The newer messages' lines all come before the older ones'. */
  lemma {:induction false} NewestFirstSplit(ms: seq<Message>, width: int, wrap: Wrapper, i: nat)
    requires i <= |ms|
    ensures NewestFirst(ms, width, wrap) == NewestFirst(ms[i..], width, wrap) + NewestFirst(ms[..i], width, wrap)
  {
    if i < |ms| {
      var init, tail, own := ms[..|ms| - 1], ms[i..], LinesOf(ms[|ms| - 1], width, wrap);
      NewestFirstSplit(init, width, wrap, i);
      assert init[i..] == tail[..|tail| - 1] && tail[|tail| - 1] == ms[|ms| - 1];
      assert NewestFirst(tail, width, wrap) == own + NewestFirst(init[i..], width, wrap);
      assert init[..i] == ms[..i];
    } else {
      assert ms[i..] == [];
      assert ms[..i] == ms;
    }
  }

  /** The newest message's last line comes first, so it lands on the bottom row. */
  lemma NewestLineFirst(ms: seq<Message>, width: int, wrap: Wrapper)
    requires ms != [] && wrap(ms[|ms| - 1].FullText(), width) != []
    ensures var w := wrap(ms[|ms| - 1].FullText(), width);
            NewestFirst(ms, width, wrap)[0] == Line(w[|w| - 1], ms[|ms| - 1].fg)
  {}

  lemma PrefixOfConcat<T>(a: seq<T>, b: seq<T>, c: seq<T>, m: nat)
    requires m <= |b|
    ensures (a + b + c)[..|a| + m] == a + b[..m]
  {
    assert forall i :: 0 <= i < |a| + m ==> (a + b + c)[..|a| + m][i] == (a + b[..m])[i];
  }

  /** Placing a + b bottom-up places b right above a. */
  lemma PlacedConcat(x: int, y: int, height: int, a: seq<Line>, b: seq<Line>)
    ensures Placed(x, y, height, a + b) == Placed(x, y, height, a) + Placed(x, y, height - |a|, b)
  {
    var ls := a + b;
    assert forall i :: |a| <= i < |ls| ==> ls[i] == b[i - |a|];
  }

  /** Taking one more older message appends its lines after the newer ones'. */
  lemma NewestFirstGrow(ms: seq<Message>, width: int, wrap: Wrapper, i: nat)
    requires i < |ms|
    ensures NewestFirst(ms[..i + 1], width, wrap) == LinesOf(ms[i], width, wrap) + NewestFirst(ms[..i], width, wrap)
  {
    assert ms[..i + 1][..i] == ms[..i];
  }

  /** The lines of the oldest i messages of `ms`, in the order render_messages visits them. */
  function Older(ms: seq<Message>, i: nat, width: int, wrap: Wrapper): seq<Line>
    requires i <= |ms|
    reads ms
  {
    if i == 0 then [] else LinesOf(ms[i - 1], width, wrap) + Older(ms, i - 1, width, wrap)
  }

  /** Older counts the same lines as NewestFirst over the prefix. */
  lemma {:induction false} OlderIsNewestFirst(ms: seq<Message>, i: nat, width: int, wrap: Wrapper)
    requires i <= |ms|
    ensures Older(ms, i, width, wrap) == NewestFirst(ms[..i], width, wrap)
  {
    if i > 0 {
      OlderIsNewestFirst(ms, i - 1, width, wrap);
      NewestFirstGrow(ms, width, wrap, i - 1);
    }
  }

  /** Over the whole log, Older is NewestFirst. */
  lemma OlderIsAll(ms: seq<Message>, width: int, wrap: Wrapper)
    ensures NewestFirst(ms, width, wrap) == Older(ms, |ms|, width, wrap)
  {
    assert ms[..|ms|] == ms;
    OlderIsNewestFirst(ms, |ms|, width, wrap);
  }

  /** Message i's lines come right after the lines of the newer messages. */
  lemma Advance(messages: seq<Message>, width: int, wrap: Wrapper, i: nat, emitted: seq<Line>)
    requires i < |messages|
    ensures emitted + Older(messages, i + 1, width, wrap)
            == (emitted + LinesOf(messages[i], width, wrap)) + Older(messages, i, width, wrap)
  {
  }

  /**
   * When the box fills inside a message, after the lines already emitted
   * and the first |more| lines of that message, what was printed is what
   * the box shows.
   */
  lemma FilledShown(x: int, y: int, height: int, emitted: seq<Line>, own: seq<Line>, older: seq<Line>,
                    before: seq<PrintCall>, more: seq<PrintCall>)
    requires before == Placed(x, y, height, emitted)
    requires |more| <= |own| && |emitted| + |more| == Max(height, 1)
    requires more == Placed(x, y, height - |emitted|, own[..|more|])
    ensures before + more == Shown(x, y, height, emitted + (own + older))
  {
    assert emitted + (own + older) == emitted + own + older;
    PlacedConcat(x, y, height, emitted, own[..|more|]);
    PrefixOfConcat(emitted, own, older, |more|);
  }

  /** The box fills inside message i: what was printed is what the box shows of all the lines. */
  lemma FilledStep(x: int, y: int, height: int, messages: seq<Message>, i: nat, width: int, wrap: Wrapper,
                   all: seq<Line>, emitted: seq<Line>, before: seq<PrintCall>, yOffset: int, more: seq<PrintCall>)
    requires i < |messages|
    requires all == emitted + Older(messages, i + 1, width, wrap)
    requires before == Placed(x, y, height, emitted) && |before| == |emitted|
    requires yOffset == height - 1 - |before| && (|before| == 0 || yOffset >= 0)
    requires |more| == Max(yOffset + 1, 1) && |more| <= |wrap(messages[i].FullText(), width)|
    requires more == Placed(x, y, yOffset + 1, BottomUp(wrap(messages[i].FullText(), width), messages[i].fg)[..|more|])
    ensures before + more == Shown(x, y, height, all)
  {
    FilledShown(x, y, height, emitted, LinesOf(messages[i], width, wrap), Older(messages, i, width, wrap), before, more);
  }

  /** Message i fits: its lines join the emitted ones, placed right above them. */
  lemma OpenStep(x: int, y: int, height: int, messages: seq<Message>, i: nat, width: int, wrap: Wrapper,
                 all: seq<Line>, emitted: seq<Line>, before: seq<PrintCall>, yOffset: int, more: seq<PrintCall>)
    requires i < |messages|
    requires all == emitted + Older(messages, i + 1, width, wrap)
    requires before == Placed(x, y, height, emitted) && |before| == |emitted|
    requires yOffset == height - 1 - |before|
    requires more == Placed(x, y, yOffset + 1, BottomUp(wrap(messages[i].FullText(), width), messages[i].fg))
    ensures all == (emitted + LinesOf(messages[i], width, wrap)) + Older(messages, i, width, wrap)
    ensures before + more == Placed(x, y, height, emitted + LinesOf(messages[i], width, wrap))
  {
    Advance(messages, width, wrap, i, emitted);
    PlacedConcat(x, y, height, emitted, LinesOf(messages[i], width, wrap));
  }

  /** When every line fits in the box, all of them are shown. */
  lemma AllShown(x: int, y: int, height: int, lines: seq<Line>, printed: seq<PrintCall>)
    requires printed == Placed(x, y, height, lines)
    requires |lines| == 0 || |lines| <= height
    ensures printed == Shown(x, y, height, lines)
  {
    assert lines[..Min(|lines|, Max(height, 1))] == lines;
  }

  function Min(a: int, b: int): int { if a <= b then a else b }
  function Max(a: int, b: int): int { if a >= b then a else b }

  /** Print calls putting line i of `ls` on row y + height - 1 - i, that is, bottom-up from the box's last row. */
  function Placed(x: int, y: int, height: int, ls: seq<Line>): (ps: seq<PrintCall>)
    ensures |ps| == |ls|
    ensures forall i :: 0 <= i < |ls| ==> ps[i] == PrintCall(x, y + height - 1 - i, ls[i].text, ls[i].fg)
  {
    seq(|ls|, i requires 0 <= i < |ls| => PrintCall(x, y + height - 1 - i, ls[i].text, ls[i].fg))
  }

  /**
   * The first max(height, 1) of `lines` (all of them, if fewer), placed
   * bottom-up in the box at (x, y): what render_messages prints.
   */
  function Shown(x: int, y: int, height: int, lines: seq<Line>): seq<PrintCall>
  {
    Placed(x, y, height, lines[..Min(|lines|, Max(height, 1))])
  }

  class MessageLog {
    var messages: seq<Message>

    /** No message object appears twice in the log. */
    ghost predicate Valid()
      reads this
    {
      forall i, j :: 0 <= i < j < |messages| ==> messages[i] != messages[j]
    }

    constructor ()
      ensures Valid() && messages == []
    {
      messages := [];
    }

    /** The newest message, as a frame. */
    function Newest(): set<Message>
      reads this
    {
      if messages == [] then {} else {messages[|messages| - 1]}
    }

    /**
     * Adds `text`: stacks onto the newest message when allowed and equal,
     * otherwise appends a new message. Earlier messages are never touched.
     */
    method AddMessage(text: string, fg: Rgb, stack: bool := true)
      requires Valid()
      modifies this, Newest()
      ensures Valid()
      ensures |messages| >= |old(messages)| && messages[..|old(messages)|] == old(messages)
      ensures EntriesOf(messages) == Stacked(old(EntriesOf(messages)), text, fg, stack)
      ensures |messages| == |old(messages)| + 1 ==> fresh(messages[|messages| - 1])
    {
      if stack && messages != [] && text == messages[|messages| - 1].plainText {
        var newest := messages[|messages| - 1];
        newest.count := newest.count + 1;
      } else {
        var m := new Message(text, fg);
        messages := messages + [m];
      }
    }

    /**
     * The inner loop of render_messages: prints one message's wrapped lines,
     * bottom line first, at row y + offset and falling; reports `full` as
     * soon as the offset drops below zero.
     */
    static method PrintBottomUp(x: int, y: int, wrapped: seq<string>, fg: Rgb, yOffset: int)
      returns (printed: seq<PrintCall>, offset: int, full: bool)
      ensures |printed| == if full then Max(yOffset + 1, 1) else |wrapped|
      ensures full ==> |printed| <= |wrapped|
      ensures !full ==> offset >= 0 || printed == []
      ensures offset == yOffset - |printed|
      ensures printed == Placed(x, y, yOffset + 1, BottomUp(wrapped, fg)[..|printed|])
      ensures !full ==> printed == Placed(x, y, yOffset + 1, BottomUp(wrapped, fg))
    {
      printed, offset, full := [], yOffset, false;
      var k := |wrapped|;
      while k > 0
        invariant 0 <= k <= |wrapped|
        invariant |printed| == |wrapped| - k
        invariant offset == yOffset - |printed|
        invariant offset >= 0 || printed == []
        invariant forall j :: 0 <= j < |printed| ==>
                    printed[j] == PrintCall(x, y + yOffset - j, wrapped[|wrapped| - 1 - j], fg)
      {
        k := k - 1;
        printed := printed + [PrintCall(x, y + offset, wrapped[k], fg)];
        offset := offset - 1;
        if offset < 0 {
          return printed, offset, true;
        }
      }
    }

    /**
     * One pass of render_messages' outer loop: prints message i's wrapped
     * lines above the `emitted` lines already printed, and reports whether
     * the box filled up on the way.
     */
    static method PrintMessage(x: int, y: int, width: int, height: int, messages: seq<Message>, i: nat, wrap: Wrapper,
                               ghost all: seq<Line>, ghost emitted: seq<Line>, printed: seq<PrintCall>, yOffset: int)
      returns (printedAfter: seq<PrintCall>, offset: int, full: bool, ghost emittedAfter: seq<Line>)
      requires i < |messages|
      requires all == emitted + Older(messages, i + 1, width, wrap)
      requires printed == Placed(x, y, height, emitted) && |printed| == |emitted|
      requires yOffset == height - 1 - |printed| && (|printed| == 0 || yOffset >= 0)
      ensures full ==> printedAfter == Shown(x, y, height, all)
      ensures !full ==> all == emittedAfter + Older(messages, i, width, wrap)
      ensures !full ==> printedAfter == Placed(x, y, height, emittedAfter) && |printedAfter| == |emittedAfter|
      ensures !full ==> offset == height - 1 - |printedAfter| && (|printedAfter| == 0 || offset >= 0)
    {
      var message := messages[i];
      var more;
      more, offset, full := PrintBottomUp(x, y, wrap(message.FullText(), width), message.fg, yOffset);
      printedAfter := printed + more;
      emittedAfter := emitted + LinesOf(messages[i], width, wrap);
      if full {
        FilledStep(x, y, height, messages, i, width, wrap, all, emitted, printed, yOffset, more);
      } else {
        OpenStep(x, y, height, messages, i, width, wrap, all, emitted, printed, yOffset, more);
      }
    }

    /**
     * Prints lines of `messages` from the bottom row of the box upwards,
     * newest first, and stops once the box is full.
     */
    static method RenderMessages(x: int, y: int, width: int, height: int, messages: seq<Message>, wrap: Wrapper)
      returns (printed: seq<PrintCall>)
      ensures printed == Shown(x, y, height, NewestFirst(messages, width, wrap))
    {
      ghost var all := NewestFirst(messages, width, wrap);
      ghost var emitted: seq<Line> := [];
      printed := [];
      var yOffset := height - 1;
      var i := |messages|;
      var full := false;
      OlderIsAll(messages, width, wrap);
      assert all == emitted + Older(messages, i, width, wrap);
      while i > 0 && !full
        invariant 0 <= i <= |messages|
        invariant full ==> printed == Shown(x, y, height, all)
        invariant !full ==> all == emitted + Older(messages, i, width, wrap)
        invariant !full ==> printed == Placed(x, y, height, emitted) && |printed| == |emitted|
        invariant !full ==> yOffset == height - 1 - |printed| && (|printed| == 0 || yOffset >= 0)
      {
        i := i - 1;
        printed, yOffset, full, emitted := PrintMessage(x, y, width, height, messages, i, wrap, all, emitted, printed, yOffset);
      }
      if !full {
        assert all == emitted;
        AllShown(x, y, height, emitted, printed);
      }
    }

    /** Renders the whole log in the box at (x, y). */
    method Render(x: int, y: int, width: int, height: int, wrap: Wrapper) returns (printed: seq<PrintCall>)
      ensures printed == Shown(x, y, height, NewestFirst(messages, width, wrap))
    {
      printed := RenderMessages(x, y, width, height, messages, wrap);
    }
  }
}
