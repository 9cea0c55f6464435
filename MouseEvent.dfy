/** The pointer-event router of `src/mouse_event.rs`. The router keeps a table of
    listener slots (a rectangle, a hovered flag and five per-button pressed flags),
    the last known cursor position, the scale factor, the raw state of five mouse
    buttons and a "bounds changed" flag. Each re-scan compares every live listener
    against the cursor and the raw button state and sends the listener's object the
    hover and button edges it has not yet seen.

    The listener objects are opaque: what the router hands them is appended to the
    `dispatched` trace instead. The `Arc`/`Weak` pair behind a `ListenerHandle` is the
    `alive` flag: `Weak::upgrade` succeeds exactly while it is set. */
module MouseEvents {
  import opened Wrappers
  import opened Floats
  import opened Rect

  datatype MouseButton = Left | Right | Middle | Back | Forward | OtherButton(id: nat)

  datatype MouseEventKind =
    | HoveringStart
    | HoveringFinish
      /** `startedInside`: whether the listener was hovered before this press reached it. */
    | ButtonDown(button: MouseButton, startedInside: bool)
    | ButtonUp(button: MouseButton, inside: bool)

  datatype MouseEvent = MouseEvent(kind: MouseEventKind, cursorPosition: Point)

  /** The window events the router reacts to; every other window event is `Unhandled`.
      `CursorMoved` carries the physical position. */
  datatype WindowEvent =
    | ScaleFactorChanged(scaleFactor: Float)
    | CursorMoved(x: Float, y: Float)
    | CursorLeft
    | MouseInput(pressed: bool, button: MouseButton)
    | RedrawRequested
    | Unhandled

  const ButtonCount: nat := 5

  /** The slot `MouseInput` stores a button's raw state in; `None` for the buttons
      it ignores. */
  function ButtonIndex(b: MouseButton): (i: Option<nat>)
    ensures i.Some? <==> !b.OtherButton?
    ensures i.Some? ==> i.value < ButtonCount
  {
    match b
    case Left => Some(0)
    case Right => Some(1)
    case Middle => Some(2)
    case Back => Some(3)
    case Forward => Some(4)
    case OtherButton(_) => None
  }

  /** The button the re-scan loop of `scan_events` names for slot `i`, as written:
      slots 3 and 4 are named `Forward` and `Back`. */
  function ButtonAtAsWritten(i: nat): (b: MouseButton)
    requires i < ButtonCount
    ensures !b.OtherButton?
  {
    match i
    case 0 => Left
    case 1 => Right
    case 2 => Middle
    case 3 => Forward
    case 4 => Back
  }

  /** As written, the names of slots 3 and 4 are the reverse of the slots
      `MouseInput` stores those two buttons in: a press of `Back`, stored in slot 3,
      is reported as a press of `Forward`, and the other way round. */
  lemma ButtonAtAsWrittenSwaps()
    ensures ButtonIndex(Back) == Some(3) && ButtonAtAsWritten(3) == Forward
    ensures ButtonIndex(Forward) == Some(4) && ButtonAtAsWritten(4) == Back
    ensures ButtonIndex(ButtonAtAsWritten(3)) != Some(3)
  {
  }

  /** The naming the re-scan is evidently meant to use: slot `i` is named after
      the button `MouseInput` stores in it. (The modelled re-scan uses
      `ButtonAtAsWritten`, as the program does.) */
  function ButtonAt(i: nat): (b: MouseButton)
    requires i < ButtonCount
    ensures ButtonIndex(b) == Some(i)
  {
    match i
    case 0 => Left
    case 1 => Right
    case 2 => Middle
    case 3 => Back
    case 4 => Forward
  }

  /** Under the intended naming, the edges of slot `i` would be reported as edges
      of exactly the button whose raw state `MouseInput` keeps in slot `i`. */
  lemma ButtonAtIndex(i: nat, b: MouseButton)
    requires i < ButtonCount
    ensures ButtonAt(i) == b <==> ButtonIndex(b) == Some(i)
  {
  }

  /** As written, no two slots are named after the same button either: the
      naming is a permutation of the five named buttons, only not the one
      `MouseInput` stores them by. */
  lemma ButtonAtAsWrittenInjective(i: nat, j: nat)
    requires i < ButtonCount && j < ButtonCount
    ensures ButtonAtAsWritten(i) == ButtonAtAsWritten(j) <==> i == j
    ensures ButtonAtAsWritten(i) == Left <==> i == 0
  {
  }

  /** `ButtonAt` never reports two slots as the same button. */
  lemma ButtonAtInjective(i: nat, j: nat)
    requires i < ButtonCount && j < ButtonCount
    ensures ButtonAt(i) == ButtonAt(j) <==> i == j
  {
    if ButtonAt(i) == ButtonAt(j) {
      assert ButtonIndex(ButtonAt(i)) == ButtonIndex(ButtonAt(j));
    }
  }

  /** winit's `to_logical`: the physical position divided by the scale factor. */
  function ToLogical(x: Float, y: Float, scale: Float): (p: Point)
    ensures p == Point(Div(x, scale), Div(y, scale))
    ensures x.Num? && y.Num? && scale.Num? && scale.r != 0.0 ==> p == Point(Num(x.r / scale.r), Num(y.r / scale.r))
  {
    Point(Div(x, scale), Div(y, scale))
  }

  /** One flag per button slot. */
  type ButtonFlags = s: seq<bool> | |s| == ButtonCount witness [false, false, false, false, false]

  const NoButtons: ButtonFlags := [false, false, false, false, false]

  /** One listener slot's bookkeeping (the object it dispatches to is not modelled). */
  datatype Listener = Listener(bounds: Bounds, isHovered: bool, buttonStates: ButtonFlags)

  /** A listener as `register_listener` stores it: not hovered, no button held. */
  function NewListener(bounds: Bounds): (l: Listener)
    ensures l.bounds == bounds && !l.isHovered
    ensures forall j | 0 <= j < ButtonCount :: !l.buttonStates[j]
  {
    Listener(bounds, false, NoButtons)
  }

  /** An event handed to the object of the listener in slot `slot`. */
  datatype Dispatch = Dispatch(slot: nat, event: MouseEvent)

  // The re-scan, as functions of the state before it.

  /** The hover edge of one listener: at most one event. */
  function HoverEvents(wasHovered: bool, inside: bool): (r: seq<MouseEventKind>) {
    if inside && !wasHovered then [HoveringStart]
    else if !inside && wasHovered then [HoveringFinish]
    else []
  }

  /** `HoveringStart` when the cursor enters, `HoveringFinish` when it leaves,
      nothing when it stays on the same side. */
  lemma HoverEventsSpec(wasHovered: bool, inside: bool)
    ensures HoverEvents(wasHovered, inside) == [HoveringStart] <==> inside && !wasHovered
    ensures HoverEvents(wasHovered, inside) == [HoveringFinish] <==> !inside && wasHovered
    ensures HoverEvents(wasHovered, inside) == [] <==> inside == wasHovered
  {
  }

  /** As written, pressing Back over a listener (raw state in slot 3) is sent to
      it as a press of Forward, and releasing Forward (slot 4) as a release of
      Back; under the intended naming the events name the buttons pressed. */
  lemma BackPressReportedAsForward(startedInside: bool, inside: bool)
    ensures ButtonEdge(ButtonIndex(Back).value, true, false, true, startedInside).1
            == Some(ButtonDown(Forward, startedInside))
    ensures ButtonEdge(ButtonIndex(Forward).value, false, true, inside, startedInside).1
            == Some(ButtonUp(Back, inside))
    ensures ButtonAt(ButtonIndex(Back).value) == Back && ButtonAt(ButtonIndex(Forward).value) == Forward
  {
  }

  /** Button slot `i` of one listener, raw state `pressed`, listener flag `held`:
      the flag the listener keeps and the event it is sent, if any. A release is
      reported wherever the cursor is; a press only while the cursor is inside.
      The event names the button as the re-scan loop does, by `ButtonAtAsWritten`. */
  function ButtonEdge(i: nat, pressed: bool, held: bool, inside: bool, startedInside: bool)
    : (r: (bool, Option<MouseEventKind>))
    requires i < ButtonCount
  {
    if !pressed && held then (pressed, Some(ButtonUp(ButtonAtAsWritten(i), inside)))
    else if pressed && !held && inside then (pressed, Some(ButtonDown(ButtonAtAsWritten(i), startedInside)))
    else (held, None)
  }

  /** The flag kept is `pressed && (held || inside)`; an event is sent exactly when
      the flag changes: `ButtonUp` on a release, `ButtonDown` on a press inside. */
  lemma ButtonEdgeSpec(i: nat, pressed: bool, held: bool, inside: bool, startedInside: bool)
    requires i < ButtonCount
    ensures var r := ButtonEdge(i, pressed, held, inside, startedInside);
            && r.0 == (pressed && (held || inside))
            && (r.1.Some? <==> r.0 != held)
            && (r.1 == Some(ButtonUp(ButtonAtAsWritten(i), inside)) <==> held && !pressed)
            && (r.1 == Some(ButtonDown(ButtonAtAsWritten(i), startedInside)) <==> !held && pressed && inside)
  {
  }

  function OptionToSeq<T>(o: Option<T>): (r: seq<T>) {
    if o.Some? then [o.value] else []
  }

  /** The button events of slots `[0, k)`, in slot order. */
  function ButtonEvents(pressed: ButtonFlags, held: ButtonFlags, inside: bool, startedInside: bool, k: nat)
    : (r: seq<MouseEventKind>)
    requires k <= ButtonCount
  {
    if k == 0 then []
    else ButtonEvents(pressed, held, inside, startedInside, k - 1)
         + OptionToSeq(ButtonEdge(k - 1, pressed[k - 1], held[k - 1], inside, startedInside).1)
  }

  /** Everything a listener is sent by one re-scan: its hover edge first, then its
      button edges. */
  function ListenerEvents(l: Listener, pressed: ButtonFlags, cursor: Point): (r: seq<MouseEventKind>)
  {
    var inside := l.bounds.Contains(cursor);
    HoverEvents(l.isHovered, inside) + ButtonEvents(pressed, l.buttonStates, inside, l.isHovered, ButtonCount)
  }

  /** The flags a listener keeps after a re-scan. */
  function HeldAfter(pressed: ButtonFlags, held: ButtonFlags, inside: bool): (r: ButtonFlags)
  {
    seq(ButtonCount, j requires 0 <= j < ButtonCount => pressed[j] && (held[j] || inside))
  }

  /** A listener after a re-scan: hovered exactly when the cursor is inside. */
  function ScanListener(l: Listener, pressed: ButtonFlags, cursor: Point): (l': Listener)
    ensures l'.bounds == l.bounds
  {
    var inside := l.bounds.Contains(cursor);
    Listener(l.bounds, inside, HeldAfter(pressed, l.buttonStates, inside))
  }

  function Tag(slot: nat, kinds: seq<MouseEventKind>, cursor: Point): (ds: seq<Dispatch>)
    ensures |ds| == |kinds|
  {
    seq(|kinds|, k requires 0 <= k < |kinds| => Dispatch(slot, MouseEvent(kinds[k], cursor)))
  }

  /** The concatenation `f(0) + f(1) + ... + f(n - 1)`. */
  function Concat<T>(f: nat -> seq<T>, n: nat): (r: seq<T>) {
    if n == 0 then [] else Concat(f, n - 1) + f(n - 1)
  }

  /** What a re-scan hands to the object of slot `i`; nothing for an empty slot. */
  function SlotTrace(ls: seq<Option<Listener>>, pressed: ButtonFlags, cursor: Point, i: nat): (r: seq<Dispatch>) {
    if i < |ls| && ls[i].Some? then Tag(i, ListenerEvents(ls[i].value, pressed, cursor), cursor) else []
  }

  function SlotTraces(ls: seq<Option<Listener>>, pressed: ButtonFlags, cursor: Point): (r: nat -> seq<Dispatch>) {
    (i: nat) => SlotTrace(ls, pressed, cursor, i)
  }

  /** What a re-scan hands to the objects of slots `[0, n)`, in slot order. */
  function ScanTrace(ls: seq<Option<Listener>>, pressed: ButtonFlags, cursor: Point, n: nat): (r: seq<Dispatch>)
    requires n <= |ls|
  {
    Concat(SlotTraces(ls, pressed, cursor), n)
  }

  /** The listener table after a re-scan. */
  function ScannedTable(ls: seq<Option<Listener>>, pressed: ButtonFlags, cursor: Point): (ls': seq<Option<Listener>>)
    ensures |ls'| == |ls|
  {
    seq(|ls|, i requires 0 <= i < |ls| =>
      match ls[i]
      case None => None
      case Some(l) => Some(ScanListener(l, pressed, cursor)))
  }

  // Properties of a re-scan.

  lemma TagConcat(slot: nat, xs: seq<MouseEventKind>, ys: seq<MouseEventKind>, cursor: Point)
    ensures Tag(slot, xs + ys, cursor) == Tag(slot, xs, cursor) + Tag(slot, ys, cursor)
  {
  }

  lemma TagMembers(slot: nat, kinds: seq<MouseEventKind>, cursor: Point)
    ensures forall d | d in Tag(slot, kinds, cursor) ::
              d.slot == slot && d.event.cursorPosition == cursor && d.event.kind in kinds
  {
    forall d | d in Tag(slot, kinds, cursor)
      ensures d.slot == slot && d.event.cursorPosition == cursor && d.event.kind in kinds
    {
      var k :| 0 <= k < |kinds| && Tag(slot, kinds, cursor)[k] == d;
      assert d.event.kind == kinds[k];
    }
  }

  /** Button slots report only button events, each about a slot below `k`. */
  lemma {:induction false} ButtonEventsAreButtons(pressed: ButtonFlags, held: ButtonFlags, inside: bool, started: bool, k: nat)
    requires k <= ButtonCount
    ensures forall e | e in ButtonEvents(pressed, held, inside, started, k) ::
              (e.ButtonDown? || e.ButtonUp?) && !e.button.OtherButton?
  {
    if k > 0 {
      ButtonEventsAreButtons(pressed, held, inside, started, k - 1);
    }
  }

  /** Exactly the button edges of slots below `k` are reported: a release of slot
      `i` as `ButtonUp` with the current `inside`, a press while inside as
      `ButtonDown` with `startedInside` set to the hover state before the scan. */
  lemma {:induction false} ButtonEventsExact(pressed: ButtonFlags, held: ButtonFlags, inside: bool, started: bool,
                                             k: nat, i: nat, x: bool)
    requires k <= ButtonCount && i < ButtonCount
    ensures (ButtonUp(ButtonAtAsWritten(i), x) in ButtonEvents(pressed, held, inside, started, k)) <==>
              (i < k && held[i] && !pressed[i] && x == inside)
    ensures (ButtonDown(ButtonAtAsWritten(i), x) in ButtonEvents(pressed, held, inside, started, k)) <==>
              (i < k && !held[i] && pressed[i] && inside && x == started)
  {
    if k > 0 {
      ButtonEventsExact(pressed, held, inside, started, k - 1, i, x);
      ButtonAtAsWrittenInjective(i, k - 1);
    }
  }

  /** No button event is reported exactly when no flag changes. */
  lemma {:induction false} ButtonEventsEmpty(pressed: ButtonFlags, held: ButtonFlags, inside: bool, started: bool, k: nat)
    requires k <= ButtonCount
    ensures (ButtonEvents(pressed, held, inside, started, k) == []) <==>
              (forall j | 0 <= j < k :: held[j] == (pressed[j] && (held[j] || inside)))
  {
    if k > 0 {
      ButtonEventsEmpty(pressed, held, inside, started, k - 1);
      var e := ButtonEdge(k - 1, pressed[k - 1], held[k - 1], inside, started);
      assert ButtonEvents(pressed, held, inside, started, k)
             == ButtonEvents(pressed, held, inside, started, k - 1) + OptionToSeq(e.1);
    }
  }

  /** The events one listener receives: the hover edge, and each button edge, in
      both directions. */
  lemma ListenerEventsExact(l: Listener, pressed: ButtonFlags, cursor: Point, i: nat, x: bool)
    requires i < ButtonCount
    ensures var inside := l.bounds.Contains(cursor);
            var es := ListenerEvents(l, pressed, cursor);
            && (HoveringStart in es <==> inside && !l.isHovered)
            && (HoveringFinish in es <==> !inside && l.isHovered)
            && (ButtonUp(ButtonAtAsWritten(i), x) in es <==> l.buttonStates[i] && !pressed[i] && x == inside)
            && (ButtonDown(ButtonAtAsWritten(i), x) in es <==> !l.buttonStates[i] && pressed[i] && inside && x == l.isHovered)
  {
    var inside := l.bounds.Contains(cursor);
    ButtonEventsAreButtons(pressed, l.buttonStates, inside, l.isHovered, ButtonCount);
    ButtonEventsExact(pressed, l.buttonStates, inside, l.isHovered, ButtonCount, i, x);
  }

  /** A listener is sent something exactly when the re-scan changes its state. */
  lemma ListenerEventsIffChanged(l: Listener, pressed: ButtonFlags, cursor: Point)
    ensures ListenerEvents(l, pressed, cursor) == [] <==> ScanListener(l, pressed, cursor) == l
  {
    var inside := l.bounds.Contains(cursor);
    ButtonEventsEmpty(pressed, l.buttonStates, inside, l.isHovered, ButtonCount);
    var after := HeldAfter(pressed, l.buttonStates, inside);
    if forall j | 0 <= j < ButtonCount :: l.buttonStates[j] == after[j] {
      assert after == l.buttonStates;
    }
  }

  /** A listener that was just scanned is sent nothing by a second scan with the
      same raw button state and a cursor on the same side of its bounds. */
  lemma ListenerSettles(l: Listener, pressed: ButtonFlags, c1: Point, c2: Point)
    requires l.bounds.Contains(c1) == l.bounds.Contains(c2)
    ensures ListenerEvents(ScanListener(l, pressed, c1), pressed, c2) == []
  {
    var l' := ScanListener(l, pressed, c1);
    ButtonEventsEmpty(pressed, l'.buttonStates, l'.bounds.Contains(c2), l'.isHovered, ButtonCount);
  }

  lemma ConcatEmpty<T>(xs: seq<T>, ys: seq<T>)
    ensures (xs + ys == []) <==> (xs == [] && ys == [])
  {
    if xs + ys == [] {
      assert |xs| + |ys| == 0;
    }
  }

  lemma {:induction false} ConcatEmptyIff<T>(f: nat -> seq<T>, n: nat)
    ensures (Concat(f, n) == []) <==> (forall k | 0 <= k < n :: f(k) == [])
  {
    if n > 0 {
      ConcatEmptyIff(f, n - 1);
      ConcatEmpty(Concat(f, n - 1), f(n - 1));
    }
  }

  lemma {:induction false} ConcatAll<T>(f: nat -> seq<T>, n: nat, P: T -> bool)
    requires forall k, x | 0 <= k < n && x in f(k) :: P(x)
    ensures forall x | x in Concat(f, n) :: P(x)
  {
    if n > 0 {
      ConcatAll(f, n - 1, P);
    }
  }

  /** Everything slot `i` is sent carries its index and the scan's cursor. */
  lemma SlotTraceMembers(ls: seq<Option<Listener>>, pressed: ButtonFlags, cursor: Point, i: nat)
    ensures forall d | d in SlotTrace(ls, pressed, cursor, i) ::
              d.slot == i && i < |ls| && ls[i].Some? && d.event.cursorPosition == cursor
  {
    if i < |ls| && ls[i].Some? {
      TagMembers(i, ListenerEvents(ls[i].value, pressed, cursor), cursor);
    }
  }

  /** Every dispatch of a re-scan of slots `[0, n)` goes to a live slot below `n`. */
  lemma ScanTraceSlots(ls: seq<Option<Listener>>, pressed: ButtonFlags, cursor: Point, n: nat)
    requires n <= |ls|
    ensures forall d | d in ScanTrace(ls, pressed, cursor, n) ::
              d.slot < n && ls[d.slot].Some? && d.event.cursorPosition == cursor
  {
    var f := SlotTraces(ls, pressed, cursor);
    var P := (d: Dispatch) => d.slot < n && ls[d.slot].Some? && d.event.cursorPosition == cursor;
    forall k, d | 0 <= k < n && d in f(k)
      ensures P(d)
    {
      SlotTraceMembers(ls, pressed, cursor, k);
    }
    ConcatAll(f, n, P);
  }

  /** An unregistered slot is sent nothing. */
  lemma EmptySlotSilent(ls: seq<Option<Listener>>, pressed: ButtonFlags, cursor: Point, i: nat)
    requires i < |ls| && ls[i].None?
    ensures forall d | d in ScanTrace(ls, pressed, cursor, |ls|) :: d.slot != i
  {
    ScanTraceSlots(ls, pressed, cursor, |ls|);
  }

  /** Every live listener sees cursors `c1` and `c2` on the same side of its bounds. */
  predicate SameSides(ls: seq<Option<Listener>>, c1: Point, c2: Point) {
    forall i | 0 <= i < |ls| && ls[i].Some? :: ls[i].value.bounds.Contains(c1) == ls[i].value.bounds.Contains(c2)
  }

  lemma SlotSettles(ls: seq<Option<Listener>>, pressed: ButtonFlags, c1: Point, c2: Point, i: nat)
    requires SameSides(ls, c1, c2)
    ensures SlotTrace(ScannedTable(ls, pressed, c1), pressed, c2, i) == []
  {
    var t := ScannedTable(ls, pressed, c1);
    if i < |ls| && ls[i].Some? {
      assert t[i] == Some(ScanListener(ls[i].value, pressed, c1));
      ListenerSettles(ls[i].value, pressed, c1, c2);
    } else if i < |ls| {
      assert t[i] == None;
    }
  }

  /** A second re-scan with the same raw button state, and a cursor on the same side
      of every listener's bounds, dispatches nothing. */
  lemma ScanSettles(ls: seq<Option<Listener>>, pressed: ButtonFlags, c1: Point, c2: Point)
    requires SameSides(ls, c1, c2)
    ensures ScanTrace(ScannedTable(ls, pressed, c1), pressed, c2, |ls|) == []
  {
    var t := ScannedTable(ls, pressed, c1);
    var f := SlotTraces(t, pressed, c2);
    forall k | 0 <= k < |ls|
      ensures f(k) == []
    {
      SlotSettles(ls, pressed, c1, c2, k);
    }
    ConcatEmptyIff(f, |ls|);
  }

  /** One slot is sent nothing exactly when the re-scan leaves it alone. */
  lemma SlotTraceEmptyIffUnchanged(ls: seq<Option<Listener>>, pressed: ButtonFlags, cursor: Point, i: nat)
    requires i < |ls|
    ensures (SlotTrace(ls, pressed, cursor, i) == []) <==> (ScannedTable(ls, pressed, cursor)[i] == ls[i])
  {
    if ls[i].Some? {
      ListenerEventsIffChanged(ls[i].value, pressed, cursor);
      assert ScannedTable(ls, pressed, cursor)[i] == Some(ScanListener(ls[i].value, pressed, cursor));
    }
  }

  /** A re-scan dispatches nothing exactly when the table comes out unchanged. */
  lemma ScanQuietIffUnchanged(ls: seq<Option<Listener>>, pressed: ButtonFlags, cursor: Point)
    ensures (ScanTrace(ls, pressed, cursor, |ls|) == []) <==> (ScannedTable(ls, pressed, cursor) == ls)
  {
    var t := ScannedTable(ls, pressed, cursor);
    var f := SlotTraces(ls, pressed, cursor);
    forall k | 0 <= k < |ls|
      ensures (f(k) == []) <==> (t[k] == ls[k])
    {
      SlotTraceEmptyIffUnchanged(ls, pressed, cursor, k);
    }
    ConcatEmptyIff(f, |ls|);
    if forall k | 0 <= k < |ls| :: t[k] == ls[k] {
      assert t == ls;
    }
  }

  lemma ScanTraceStep(ls: seq<Option<Listener>>, pressed: ButtonFlags, cursor: Point, n: nat)
    requires n < |ls|
    ensures ScanTrace(ls, pressed, cursor, n + 1) == ScanTrace(ls, pressed, cursor, n) + SlotTrace(ls, pressed, cursor, n)
  {
  }

  /** What a re-scan does to slot `i` depends on that slot alone. */
  lemma SlotLocal(ls: seq<Option<Listener>>, ls': seq<Option<Listener>>, pressed: ButtonFlags, cursor: Point, i: nat)
    requires i < |ls| == |ls'| && ls[i] == ls'[i]
    ensures SlotTrace(ls, pressed, cursor, i) == SlotTrace(ls', pressed, cursor, i)
    ensures ScannedTable(ls, pressed, cursor)[i] == ScannedTable(ls', pressed, cursor)[i]
  {
  }

  /** What re-scanning the first `i` slots of table `ls0` leaves behind in table
      `ls`, trace `d` and flag `redraw`: those slots scanned, the rest untouched,
      their events appended to `d0`, and whether there were any. */
  ghost predicate SlotsDone(ls0: seq<Option<Listener>>, d0: seq<Dispatch>, pressed: ButtonFlags, cursor: Point,
                            i: nat, ls: seq<Option<Listener>>, d: seq<Dispatch>, redraw: bool)
    requires i <= |ls0|
  {
    && |ls| == |ls0|
    && (forall k | 0 <= k < |ls0| :: ls[k] == if k < i then ScannedTable(ls0, pressed, cursor)[k] else ls0[k])
    && d == d0 + ScanTrace(ls0, pressed, cursor, i)
    && redraw == (ScanTrace(ls0, pressed, cursor, i) != [])
  }

  /** Scanning slot `i` of the table reached so far moves `SlotsDone` on by one slot. */
  lemma SlotsDoneStep(ls0: seq<Option<Listener>>, d0: seq<Dispatch>, pressed: ButtonFlags, cursor: Point,
                      i: nat, ls: seq<Option<Listener>>, d: seq<Dispatch>, redraw: bool)
    requires i < |ls0| && SlotsDone(ls0, d0, pressed, cursor, i, ls, d, redraw)
    ensures SlotsDone(ls0, d0, pressed, cursor, i + 1, ls[i := ScannedTable(ls, pressed, cursor)[i]],
                      d + SlotTrace(ls, pressed, cursor, i), redraw || SlotTrace(ls, pressed, cursor, i) != [])
  {
    SlotLocal(ls, ls0, pressed, cursor, i);
    var t := ScannedTable(ls0, pressed, cursor);
    var ls' := ls[i := t[i]];
    forall k | 0 <= k < |ls0|
      ensures ls'[k] == if k < i + 1 then t[k] else ls0[k]
    {
    }
    ScanTraceStep(ls0, pressed, cursor, i);
    ConcatEmpty(ScanTrace(ls0, pressed, cursor, i), SlotTrace(ls0, pressed, cursor, i));
  }

  /** Once every slot is scanned, `SlotsDone` is the outcome of a full re-scan. */
  lemma SlotsDoneAll(ls0: seq<Option<Listener>>, d0: seq<Dispatch>, pressed: ButtonFlags, cursor: Point,
                     ls: seq<Option<Listener>>, d: seq<Dispatch>, redraw: bool)
    requires SlotsDone(ls0, d0, pressed, cursor, |ls0|, ls, d, redraw)
    ensures ls == ScannedTable(ls0, pressed, cursor)
    ensures d == d0 + ScanTrace(ls0, pressed, cursor, |ls0|)
    ensures redraw == (ScanTrace(ls0, pressed, cursor, |ls0|) != [])
  {
  }

  /** The state behind a `MouseEventRouter` (each field sits behind its own lock
      or atomic in the source). */
  class MouseEventRouter {
    /** `None` until the cursor is first seen, and after it leaves the window. */
    var cursorPosition: Option<Point>
    var scaleFactor: Float
    var bounds: Bounds
    var listeners: seq<Option<Listener>>
    var boundsChanged: bool
    var buttonStates: ButtonFlags
    /** What the listener objects have been sent, in order. */
    var dispatched: seq<Dispatch>
    /** Whether a strong reference to the router still exists. */
    var alive: bool

    /** `MouseEventRouter::new` */
    constructor (bounds: Bounds)
      ensures cursorPosition == None && scaleFactor == One && this.bounds == bounds
      ensures listeners == [] && !boundsChanged
      ensures buttonStates == NoButtons
      ensures dispatched == [] && alive
    {
      cursorPosition := None;
      scaleFactor := One;
      this.bounds := bounds;
      listeners := [];
      boundsChanged := false;
      buttonStates := NoButtons;
      dispatched := [];
      alive := true;
    }

    /** The outcome of a re-scan from table `ls0` and trace `d0` under the current
        cursor and raw button state. */
    ghost predicate ScanOutcome(ls0: seq<Option<Listener>>, d0: seq<Dispatch>, redraw: bool)
      reads this
    {
      match cursorPosition
      case None => listeners == ls0 && dispatched == d0 && !redraw
      case Some(c) =>
        && listeners == ScannedTable(ls0, buttonStates, c)
        && dispatched == d0 + ScanTrace(ls0, buttonStates, c, |ls0|)
        && redraw == (ScanTrace(ls0, buttonStates, c, |ls0|) != [])
    }

    /** Appends a fresh listener and returns a handle to its slot. */
    method RegisterListener(b: Bounds) returns (handle: ListenerHandle)
      modifies this`listeners
      ensures listeners == old(listeners) + [Some(NewListener(b))]
      ensures fresh(handle) && handle.router == this && handle.index == old(|listeners|)
    {
      var index := |listeners|;
      listeners := listeners + [Some(NewListener(b))];
      handle := new ListenerHandle(this, index);
    }

    /** Empties slot `index`; a slot out of range is a panic in the source. */
    method UnregisterListener(index: nat)
      requires index < |listeners|
      modifies this`listeners
      ensures listeners == old(listeners)[index := None]
    {
      listeners := listeners[index := None];
    }

    /** Moves the listener of slot `index` and raises the bounds-changed flag. An
        empty slot or one out of range is a panic (the `unwrap` or the index
        fails before anything is written): `panicked` reports it, and then
        nothing has changed. */
    method UpdateBounds(index: nat, b: Bounds) returns (panicked: bool)
      modifies this`listeners, this`boundsChanged
      ensures panicked <==> !(index < |old(listeners)| && old(listeners)[index].Some?)
      ensures !panicked ==>
                listeners == old(listeners)[index := Some(old(listeners)[index].value.(bounds := b))]
                && boundsChanged
      ensures panicked ==> listeners == old(listeners) && boundsChanged == old(boundsChanged)
    {
      if index < |listeners| && listeners[index].Some? {
        listeners := listeners[index := Some(listeners[index].value.(bounds := b))];
        boundsChanged := true;
        panicked := false;
      } else {
        panicked := true;
      }
    }

    /** The hover edge of the listener in slot `i`: sends it, if any, and returns
        the hovered flag the listener keeps. */
    method ScanHover(i: nat, c: Point, wasHovered: bool, inside: bool) returns (hovered: bool, sent: bool)
      modifies this`dispatched
      ensures hovered == inside && sent == (HoverEvents(wasHovered, inside) != [])
      ensures dispatched == old(dispatched) + Tag(i, HoverEvents(wasHovered, inside), c)
    {
      hovered, sent := wasHovered, false;
      if inside && !hovered {
        hovered := true;
        dispatched := dispatched + [Dispatch(i, MouseEvent(HoveringStart, c))];
        sent := true;
      } else if !inside && hovered {
        hovered := false;
        dispatched := dispatched + [Dispatch(i, MouseEvent(HoveringFinish, c))];
        sent := true;
      }
    }

    /** What the first `j` button slots of the listener in slot `i` leave behind:
        the flags they keep, the events they append to `d0`, and whether they sent any. */
    ghost predicate ButtonsDone(i: nat, c: Point, held: ButtonFlags, inside: bool, startedInside: bool,
                                d0: seq<Dispatch>, j: nat, flags: ButtonFlags, sent: bool)
      requires j <= ButtonCount
      reads this
    {
      && (forall k | 0 <= k < ButtonCount :: flags[k] == if k < j then buttonStates[k] && (held[k] || inside) else held[k])
      && dispatched == d0 + Tag(i, ButtonEvents(buttonStates, held, inside, startedInside, j), c)
      && sent == (ButtonEvents(buttonStates, held, inside, startedInside, j) != [])
    }

    /** Button slot `j` of the listener in slot `i`: sends the edge, if any, and
        records the flag the listener keeps. */
    method ScanButton(i: nat, j: nat, c: Point, held: ButtonFlags, inside: bool, startedInside: bool,
                      ghost d0: seq<Dispatch>, flags: ButtonFlags, sent: bool)
      returns (flags': ButtonFlags, sent': bool)
      requires j < ButtonCount && ButtonsDone(i, c, held, inside, startedInside, d0, j, flags, sent)
      modifies this`dispatched
      ensures ButtonsDone(i, c, held, inside, startedInside, d0, j + 1, flags', sent')
    {
      ghost var before := ButtonEvents(buttonStates, held, inside, startedInside, j);
      ghost var edge := ButtonEdge(j, buttonStates[j], held[j], inside, startedInside);
      TagConcat(i, before, OptionToSeq(edge.1), c);
      ConcatEmpty(before, OptionToSeq(edge.1));
      var state := buttonStates[j];
      var button := ButtonAtAsWritten(j);
      flags', sent' := flags, sent;
      if !state && flags[j] {
        flags' := flags[j := state];
        dispatched := dispatched + [Dispatch(i, MouseEvent(ButtonUp(button, inside), c))];
        sent' := true;
      } else if state && !flags[j] && inside {
        flags' := flags[j := state];
        dispatched := dispatched + [Dispatch(i, MouseEvent(ButtonDown(button, startedInside), c))];
        sent' := true;
      }
    }

    /** The five button slots of the listener in slot `i`, in order. */
    method ScanButtons(i: nat, c: Point, held: ButtonFlags, inside: bool, startedInside: bool)
      returns (flags: ButtonFlags, sent: bool)
      modifies this`dispatched
      ensures flags == HeldAfter(buttonStates, held, inside)
      ensures dispatched == old(dispatched) + Tag(i, ButtonEvents(buttonStates, held, inside, startedInside, ButtonCount), c)
      ensures sent == (ButtonEvents(buttonStates, held, inside, startedInside, ButtonCount) != [])
    {
      ghost var d0 := dispatched;
      flags, sent := held, false;
      var j := 0;
      while j < ButtonCount
        invariant 0 <= j <= ButtonCount
        invariant ButtonsDone(i, c, held, inside, startedInside, d0, j, flags, sent)
      {
        flags, sent := ScanButton(i, j, c, held, inside, startedInside, d0, flags, sent);
        j := j + 1;
      }
      assert flags == HeldAfter(buttonStates, held, inside);
    }

    /** Re-scans slot `i` against cursor `c`: updates it and dispatches its edges. */
    method ScanSlot(i: nat, c: Point) returns (any: bool)
      requires i < |listeners|
      modifies this`listeners, this`dispatched
      ensures listeners == old(listeners)[i := ScannedTable(old(listeners), buttonStates, c)[i]]
      ensures dispatched == old(dispatched) + SlotTrace(old(listeners), buttonStates, c, i)
      ensures any == (SlotTrace(old(listeners), buttonStates, c, i) != [])
    {
      ghost var t := ScannedTable(listeners, buttonStates, c);
      if listeners[i].None? {
        assert t[i] == None;
        assert listeners[i := t[i]] == listeners;
        return false;
      }
      var l := listeners[i].value;
      var inside := l.bounds.Contains(c);
      var hovered, sentHover := ScanHover(i, c, l.isHovered, inside);
      var flags, sentButtons := ScanButtons(i, c, l.buttonStates, inside, l.isHovered);
      any := sentHover || sentButtons;
      ghost var es := ButtonEvents(buttonStates, l.buttonStates, inside, l.isHovered, ButtonCount);
      TagConcat(i, HoverEvents(l.isHovered, inside), es, c);
      ConcatEmpty(HoverEvents(l.isHovered, inside), es);
      assert t[i] == Some(ScanListener(l, buttonStates, c));
      listeners := listeners[i := Some(Listener(l.bounds, hovered, flags))];
    }

    /** `scan_events`: with the cursor unknown nothing happens; otherwise every
        slot is re-scanned in order. Reports whether anything was dispatched. */
    method ScanEvents() returns (redraw: bool)
      modifies this`listeners, this`dispatched
      ensures ScanOutcome(old(listeners), old(dispatched), redraw)
    {
      redraw := false;
      if cursorPosition.None? {
        return;
      }
      redraw := ScanAllSlots(cursorPosition.value);
    }

    /** The loop of `scan_events` under cursor `c`: re-scans every slot in order. */
    method ScanAllSlots(c: Point) returns (redraw: bool)
      modifies this`listeners, this`dispatched
      ensures listeners == ScannedTable(old(listeners), buttonStates, c)
      ensures dispatched == old(dispatched) + ScanTrace(old(listeners), buttonStates, c, |old(listeners)|)
      ensures redraw == (ScanTrace(old(listeners), buttonStates, c, |old(listeners)|) != [])
    {
      ghost var ls0 := listeners;
      ghost var d0 := dispatched;
      redraw := false;
      var i, n := 0, |listeners|;
      while i < n
        invariant n == |ls0| && 0 <= i <= n
        invariant SlotsDone(ls0, d0, buttonStates, c, i, listeners, dispatched, redraw)
      {
        SlotsDoneStep(ls0, d0, buttonStates, c, i, listeners, dispatched, redraw);
        var any := ScanSlot(i, c);
        redraw := redraw || any;
        i := i + 1;
      }
      SlotsDoneAll(ls0, d0, buttonStates, c, listeners, dispatched, redraw);
    }

    /** `window_event`: updates the router's state from one window event and
        re-scans where the source does; reports whether a redraw is wanted. */
    method WindowEvent(e: WindowEvent) returns (redraw: bool)
      modifies this`scaleFactor, this`cursorPosition, this`buttonStates, this`boundsChanged
      modifies this`listeners, this`dispatched
      ensures e.ScaleFactorChanged? ==>
                && scaleFactor == e.scaleFactor && cursorPosition == old(cursorPosition)
                && buttonStates == old(buttonStates) && boundsChanged == old(boundsChanged)
                && ScanOutcome(old(listeners), old(dispatched), redraw)
      ensures e.CursorMoved? ==>
                && cursorPosition == Some(ToLogical(e.x, e.y, old(scaleFactor))) && scaleFactor == old(scaleFactor)
                && buttonStates == old(buttonStates) && boundsChanged == old(boundsChanged)
                && ScanOutcome(old(listeners), old(dispatched), redraw)
      ensures e.CursorLeft? ==>
                && cursorPosition == None && scaleFactor == old(scaleFactor)
                && buttonStates == old(buttonStates) && boundsChanged == old(boundsChanged)
                && listeners == old(listeners) && dispatched == old(dispatched) && !redraw
      ensures e.MouseInput? && e.button.OtherButton? ==>
                && cursorPosition == old(cursorPosition) && scaleFactor == old(scaleFactor)
                && buttonStates == old(buttonStates) && boundsChanged == old(boundsChanged)
                && listeners == old(listeners) && dispatched == old(dispatched) && !redraw
      ensures e.MouseInput? && !e.button.OtherButton? ==>
                && cursorPosition == old(cursorPosition) && scaleFactor == old(scaleFactor)
                && buttonStates == old(buttonStates)[ButtonIndex(e.button).value := e.pressed]
                && boundsChanged == old(boundsChanged)
                && ScanOutcome(old(listeners), old(dispatched), redraw)
      ensures e.RedrawRequested? ==>
                && cursorPosition == old(cursorPosition) && scaleFactor == old(scaleFactor)
                && buttonStates == old(buttonStates) && !boundsChanged
                && (old(boundsChanged) ==> ScanOutcome(old(listeners), old(dispatched), redraw))
                && (!old(boundsChanged) ==> listeners == old(listeners) && dispatched == old(dispatched) && !redraw)
      ensures e.Unhandled? ==>
                && cursorPosition == old(cursorPosition) && scaleFactor == old(scaleFactor)
                && buttonStates == old(buttonStates) && boundsChanged == old(boundsChanged)
                && listeners == old(listeners) && dispatched == old(dispatched) && !redraw
    {
      match e
      case ScaleFactorChanged(s) =>
        SetScaleFactor(s);
        redraw := ScanEvents();
      case CursorMoved(x, y) =>
        var scale := GetScaleFactor();
        var p := ToLogical(x, y, scale);
        var _ := SetCursorPosition(Some(p));
        redraw := ScanEvents();
      case CursorLeft =>
        var _ := SetCursorPosition(None);
        redraw := ScanEvents();
      case MouseInput(pressed, button) =>
        var index := ButtonIndex(button);
        if index.None? {
          return false;
        }
        buttonStates := buttonStates[index.value := pressed];
        redraw := ScanEvents();
      case RedrawRequested =>
        var changed := boundsChanged;
        boundsChanged := false;
        if !changed {
          return false;
        }
        redraw := ScanEvents();
      case Unhandled =>
        redraw := false;
    }

    method SetBounds(b: Bounds)
      modifies this`bounds
      ensures bounds == b
    {
      bounds := b;
    }

    method GetBounds() returns (b: Bounds)
      ensures b == bounds
    {
      b := bounds;
    }

    method GetScaleFactor() returns (s: Float)
      ensures s == scaleFactor
    {
      s := scaleFactor;
    }

    method SetScaleFactor(s: Float)
      modifies this`scaleFactor
      ensures scaleFactor == s
    {
      scaleFactor := s;
    }

    method GetCursorPosition() returns (p: Option<Point>)
      ensures p == cursorPosition
    {
      p := cursorPosition;
    }

    /** Stores the position and returns the value now stored (the source's doc
        comment says it returns the old value; it returns the new one). */
    method SetCursorPosition(p: Option<Point>) returns (stored: Option<Point>)
      modifies this`cursorPosition
      ensures cursorPosition == p && stored == p
    {
      cursorPosition := p;
      stored := cursorPosition;
    }

    /** The last strong reference goes away: from now on `Weak::upgrade` fails. */
    method Release()
      modifies this`alive
      ensures !alive
    {
      alive := false;
    }
  }

  /** A weak reference to the router plus the index of the slot it registered. */
  class ListenerHandle {
    const router: MouseEventRouter
    const index: nat

    constructor (router: MouseEventRouter, index: nat)
      ensures this.router == router && this.index == index
    {
      this.router := router;
      this.index := index;
    }

    /** A second handle to the same slot. */
    method Clone() returns (h: ListenerHandle)
      ensures fresh(h) && h.router == router && h.index == index
    {
      h := new ListenerHandle(router, index);
    }

    /** Moves the listener if the router is still alive; a silent no-op otherwise.
        A live router whose slot was emptied (another clone of this handle was
        dropped) panics, as `MouseEventRouter.UpdateBounds` does. */
    method UpdateBounds(b: Bounds) returns (panicked: bool)
      modifies router`listeners, router`boundsChanged
      ensures panicked <==>
                old(router.alive) && !(index < |old(router.listeners)| && old(router.listeners)[index].Some?)
      ensures old(router.alive) && !panicked ==>
                router.listeners == old(router.listeners)[index := Some(old(router.listeners)[index].value.(bounds := b))]
                && router.boundsChanged
      ensures !old(router.alive) || panicked ==>
                router.listeners == old(router.listeners) && router.boundsChanged == old(router.boundsChanged)
    {
      panicked := false;
      if router.alive {
        panicked := router.UpdateBounds(index, b);
      }
    }

    /** `Drop`: empties the slot if the router is still alive; a silent no-op otherwise. */
    method Drop()
      requires router.alive ==> index < |router.listeners|
      modifies router`listeners
      ensures old(router.alive) ==> router.listeners == old(router.listeners)[index := None]
      ensures !old(router.alive) ==> router.listeners == old(router.listeners)
    {
      if router.alive {
        router.UnregisterListener(index);
      }
    }
  }

  /** Two clones of one handle share a slot: dropping one empties it, so moving
      the listener through the other panics while the router is alive. */
  method UpdateAfterCloneDropped(h: ListenerHandle, b: Bounds) returns (panicked: bool)
    requires h.router.alive && h.index < |h.router.listeners|
    modifies h.router`listeners, h.router`boundsChanged
    ensures panicked
    ensures h.router.listeners == old(h.router.listeners)[h.index := None]
  {
    var clone := h.Clone();
    h.Drop();
    panicked := clone.UpdateBounds(b);
  }
}
