/** The push button of `src/button.rs`: a four-state machine driven by the mouse
    events its listener slot receives, a sticky "needs updating" flag that the
    drawing pass consumes, and the per-state styles. The GPU rectangle and text a
    button owns are represented by the style uploads they are given. */
module Buttons {
  import opened Floats
  import opened Rect
  import opened Color
  import opened Wrappers
  import opened MouseEvents

  datatype ButtonState = Idle | Hovered | Pressed | PressedOutside

  /** The `u8` discriminants `AtomicButtonState` stores. */
  type ButtonStateRepr = u: nat | u < 4

  function Repr(s: ButtonState): (r: ButtonStateRepr) {
    match s
    case Idle => 0
    case Hovered => 1
    case Pressed => 2
    case PressedOutside => 3
  }

  /** `AtomicButtonState::cast_from_repr` */
  function CastFromRepr(u: ButtonStateRepr): (r: ButtonState) {
    if u == 0 then Idle else if u == 1 then Hovered else if u == 2 then Pressed else PressedOutside
  }

  /** Storing a state and loading it back gives the same state, and every stored
      byte is the discriminant of exactly one state. */
  lemma ReprRoundTrip(s: ButtonState, u: ButtonStateRepr)
    ensures CastFromRepr(Repr(s)) == s
    ensures Repr(CastFromRepr(u)) == u
  {
  }

  datatype ButtonStateStyle = ButtonStateStyle(
    lineWidth: LineWidth, fontSize: Float, textColor: Srgb, fillColor: Srgb, lineColor: Srgb)

  datatype ButtonStyle = ButtonStyle(idleStyle: ButtonStateStyle, hoveredStyle: ButtonStateStyle,
                                     pressedStyle: ButtonStateStyle)
  {
    function StateStyleFor(state: ButtonState): (r: ButtonStateStyle) {
      match state
      case Idle => idleStyle
      case Hovered => hoveredStyle
      case PressedOutside => hoveredStyle
      case Pressed => pressedStyle
    }

    function WithLineWidth(lw: LineWidth): (r: ButtonStyle) {
      ButtonStyle(idleStyle.(lineWidth := lw), hoveredStyle.(lineWidth := lw), pressedStyle.(lineWidth := lw))
    }

    function WithFontSize(size: Float): (r: ButtonStyle) {
      ButtonStyle(idleStyle.(fontSize := size), hoveredStyle.(fontSize := size), pressedStyle.(fontSize := size))
    }
  }

  /** A button that was pressed and then left looks hovered; only a button pressed
      with the cursor on it looks pressed. */
  lemma StateStyleChoice(style: ButtonStyle, state: ButtonState)
    ensures state == Pressed ==> style.StateStyleFor(state) == style.pressedStyle
    ensures state == Hovered || state == PressedOutside ==> style.StateStyleFor(state) == style.hoveredStyle
    ensures state == Idle ==> style.StateStyleFor(state) == style.idleStyle
    ensures style.pressedStyle != style.hoveredStyle && style.pressedStyle != style.idleStyle ==>
              (style.StateStyleFor(state) == style.pressedStyle <==> state == Pressed)
  {
  }

  /** Replacing the line width (or the font size) changes that field of every
      state's style and nothing else. */
  lemma WithFieldOnly(style: ButtonStyle, lw: LineWidth, size: Float, state: ButtonState)
    ensures style.WithLineWidth(lw).StateStyleFor(state) == style.StateStyleFor(state).(lineWidth := lw)
    ensures style.WithFontSize(size).StateStyleFor(state) == style.StateStyleFor(state).(fontSize := size)
  {
  }

  /** The state a button moves to when its listener receives `kind`. */
  function Transition(before: ButtonState, kind: MouseEventKind): (r: ButtonState) {
    match kind
    case HoveringStart =>
      if before == Idle then Hovered else if before == PressedOutside then Pressed else before
    case HoveringFinish =>
      if before == Hovered then Idle else if before == Pressed then PressedOutside else before
    case ButtonDown(button, _) =>
      if button == Left then Pressed else before
    case ButtonUp(button, inside) =>
      if button != Left then before else if inside then Hovered else Idle
  }

  /** Entering and leaving flip between the idle and hovered looks and between the
      two pressed states; in any other state hovering changes nothing. */
  lemma TransitionHover(s: ButtonState)
    ensures Transition(s, HoveringStart) == (match s case Idle => Hovered case PressedOutside => Pressed case _ => s)
    ensures Transition(s, HoveringFinish) == (match s case Hovered => Idle case Pressed => PressedOutside case _ => s)
  {
  }

  /** The left button decides the state from every state: down presses, up
      releases to hovered inside and to idle outside. Other buttons change nothing. */
  lemma TransitionButtons(s: ButtonState, b: MouseButton, flag: bool)
    ensures Transition(s, ButtonDown(Left, flag)) == Pressed
    ensures Transition(s, ButtonUp(Left, flag)) == if flag then Hovered else Idle
    ensures b != Left ==> Transition(s, ButtonDown(b, flag)) == s && Transition(s, ButtonUp(b, flag)) == s
  {
  }

  /** The state reached after the events `kinds`, in order. */
  function Run(s: ButtonState, kinds: seq<MouseEventKind>): (r: ButtonState) {
    if kinds == [] then s else Transition(Run(s, kinds[..|kinds| - 1]), kinds[|kinds| - 1])
  }

  /** Running two batches of events one after the other is running their concatenation. */
  lemma {:induction false} RunConcat(s: ButtonState, xs: seq<MouseEventKind>, ys: seq<MouseEventKind>)
    ensures Run(s, xs + ys) == Run(Run(s, xs), ys)
    decreases |ys|
  {
    if ys != [] {
      assert (xs + ys)[..|xs + ys| - 1] == xs + ys[..|ys| - 1];
      assert (xs + ys)[|xs + ys| - 1] == ys[|ys| - 1];
      RunConcat(s, xs, ys[..|ys| - 1]);
    } else {
      assert xs + ys == xs;
    }
  }

  /** The state a button should be in given what its listener slot records: pressed
      looks follow the left-button flag, hovered looks the hover flag. */
  function Derived(hovered: bool, leftHeld: bool): (s: ButtonState)
    ensures (s == Pressed || s == PressedOutside) <==> leftHeld
    ensures (s == Hovered || s == Pressed) <==> hovered
  {
    if leftHeld then (if hovered then Pressed else PressedOutside)
    else (if hovered then Hovered else Idle)
  }

  /** Button slots 1-4 never carry the left button, so only slot 0 moves the state. */
  lemma {:induction false} RunOtherButtons(s: ButtonState, pressed: ButtonFlags, held: ButtonFlags, inside: bool,
                                           started: bool, k: nat)
    requires 1 <= k <= ButtonCount
    ensures Run(s, ButtonEvents(pressed, held, inside, started, k)) == Run(s, ButtonEvents(pressed, held, inside, started, 1))
  {
    if k > 1 {
      RunOtherButtons(s, pressed, held, inside, started, k - 1);
      var prev := ButtonEvents(pressed, held, inside, started, k - 1);
      var edge := OptionToSeq(ButtonEdge(k - 1, pressed[k - 1], held[k - 1], inside, started).1);
      RunConcat(s, prev, edge);
      OtherEdgeKeeps(Run(s, prev), k - 1, pressed[k - 1], held[k - 1], inside, started);
    }
  }

  /** The edge of a button slot other than the left one leaves every state alone. */
  lemma OtherEdgeKeeps(t: ButtonState, i: nat, pressed: bool, held: bool, inside: bool, started: bool)
    requires 1 <= i < ButtonCount
    ensures Run(t, OptionToSeq(ButtonEdge(i, pressed, held, inside, started).1)) == t
  {
    var e := ButtonEdge(i, pressed, held, inside, started).1;
    if e.Some? {
      assert ButtonAtAsWritten(i) != Left by {
        ButtonAtAsWrittenInjective(i, 0);
      }
      assert [e.value][..0] == [];
    }
  }

  /** The hover edge moves a coherent state to the one for the new hover flag. */
  lemma HoverCoherent(hovered: bool, leftHeld: bool, inside: bool)
    ensures Run(Derived(hovered, leftHeld), HoverEvents(hovered, inside)) == Derived(inside, leftHeld)
  {
    var hover := HoverEvents(hovered, inside);
    if hover != [] {
      assert hover[..0] == [];
    }
  }

  /** The left-button edge moves a coherent state to the one for the new left flag. */
  lemma LeftEdgeCoherent(pressed: bool, leftHeld: bool, inside: bool, started: bool)
    ensures var edge := ButtonEdge(0, pressed, leftHeld, inside, started);
            Run(Derived(inside, leftHeld), OptionToSeq(edge.1)) == Derived(inside, edge.0)
  {
    var edge := OptionToSeq(ButtonEdge(0, pressed, leftHeld, inside, started).1);
    if edge != [] {
      assert edge[..0] == [];
    }
  }

  /** Running the events of one re-scan of a listener: its hover edge, then its
      left-button edge; the other button slots leave the state alone. */
  lemma RunListenerEvents(s: ButtonState, l: Listener, pressed: ButtonFlags, cursor: Point)
    ensures var inside := l.bounds.Contains(cursor);
            Run(s, ListenerEvents(l, pressed, cursor))
              == Run(Run(s, HoverEvents(l.isHovered, inside)),
                     OptionToSeq(ButtonEdge(0, pressed[0], l.buttonStates[0], inside, l.isHovered).1))
  {
    var inside := l.bounds.Contains(cursor);
    var hover := HoverEvents(l.isHovered, inside);
    var buttons := ButtonEvents(pressed, l.buttonStates, inside, l.isHovered, ButtonCount);
    RunConcat(s, hover, buttons);
    RunOtherButtons(Run(s, hover), pressed, l.buttonStates, inside, l.isHovered, ButtonCount);
  }

  /** A button whose state matches its listener slot before a re-scan still
      matches it after the re-scan, whatever the cursor and raw button state: the
      events the router hands to the slot move the state exactly as the slot's
      flags move. */
  lemma ScanKeepsButtonCoherent(l: Listener, pressed: ButtonFlags, cursor: Point)
    ensures var l' := ScanListener(l, pressed, cursor);
            Run(Derived(l.isHovered, l.buttonStates[0]), ListenerEvents(l, pressed, cursor))
              == Derived(l'.isHovered, l'.buttonStates[0])
  {
    var inside := l.bounds.Contains(cursor);
    RunListenerEvents(Derived(l.isHovered, l.buttonStates[0]), l, pressed, cursor);
    HoverCoherent(l.isHovered, l.buttonStates[0], inside);
    LeftEdgeCoherent(pressed[0], l.buttonStates[0], inside, l.isHovered);
    ButtonEdgeSpec(0, pressed[0], l.buttonStates[0], inside, l.isHovered);
  }

  /** What the button hands its rectangle and text when their GPU side is refreshed
      (the text-centring arithmetic is not modelled). */
  datatype StyleUpload = StyleUpload(style: ButtonStateStyle, bounds: Bounds)

  /** A call of the button's callback: the event, and the state the button is in
      by then. */
  datatype CallbackCall = CallbackCall(event: MouseEvent, state: ButtonState)

  /** `ButtonDispatch`: the object a button registers with the router. */
  class ButtonDispatch {
    var state: ButtonStateRepr
    /** Raised whenever the state changes; cleared by the drawing pass. */
    var needsUpdating: bool
    const hasCallback: bool
    /** The calls of the callback, in order. */
    var callbackCalls: seq<CallbackCall>

    constructor (hasCallback: bool)
      ensures CastFromRepr(state) == Idle && needsUpdating && this.hasCallback == hasCallback
      ensures callbackCalls == []
    {
      state := Repr(Idle);
      needsUpdating := true;
      this.hasCallback := hasCallback;
      callbackCalls := [];
    }

    method GetState() returns (s: ButtonState)
      ensures Repr(s) == state
    {
      s := CastFromRepr(state);
    }

    method SetState(s: ButtonState)
      modifies this`state
      ensures CastFromRepr(state) == s
    {
      state := Repr(s);
    }

    /** `MouseEventListener::mouse_event`: moves the state, ORs "the state changed"
        into the flag, then calls the callback if there is one. */
    method MouseEvent(event: MouseEvent)
      modifies this`state, this`needsUpdating, this`callbackCalls
      ensures CastFromRepr(state) == Transition(CastFromRepr(old(state)), event.kind)
      ensures needsUpdating == (old(needsUpdating) || CastFromRepr(old(state)) != CastFromRepr(state))
      ensures callbackCalls == old(callbackCalls) + (if hasCallback then [CallbackCall(event, CastFromRepr(state))] else [])
    {
      var oldState := GetState();
      var newState := Transition(oldState, event.kind);
      SetState(newState);
      needsUpdating := needsUpdating || oldState != newState;
      if hasCallback {
        callbackCalls := callbackCalls + [CallbackCall(event, newState)];
      }
    }
  }

  class Button {
    const titleLen: nat
    const boundingBox: Bounds
    const dispatch: ButtonDispatch
    const handle: ListenerHandle
    const style: ButtonStyle
    /** What the drawing pass has uploaded for this button, in order. */
    var uploads: seq<StyleUpload>

    constructor (titleLen: nat, boundingBox: Bounds, dispatch: ButtonDispatch, handle: ListenerHandle, style: ButtonStyle)
      ensures this.titleLen == titleLen && this.boundingBox == boundingBox && this.dispatch == dispatch
      ensures this.handle == handle && this.style == style && uploads == []
    {
      this.titleLen := titleLen;
      this.boundingBox := boundingBox;
      this.dispatch := dispatch;
      this.handle := handle;
      this.style := style;
      uploads := [];
    }

    method State() returns (s: ButtonState)
      ensures Repr(s) == dispatch.state
    {
      s := dispatch.GetState();
    }

    method BoundingBox() returns (b: Bounds)
      ensures b == boundingBox
    {
      b := boundingBox;
    }
  }

  /** `ButtonRenderer`: creates buttons registered with one router and refreshes
      them before drawing. */
  class ButtonRenderer {
    const router: MouseEventRouter

    constructor (router: MouseEventRouter)
      ensures this.router == router
    {
      this.router := router;
    }

    /** A new button starts idle, needing an update, with its dispatch registered
        at the next free slot under its bounding box. */
    method CreateButton(boundingBox: Bounds, style: ButtonStyle, title: string, hasCallback: bool)
      returns (button: Button)
      modifies router`listeners
      ensures fresh(button) && fresh(button.dispatch)
      ensures CastFromRepr(button.dispatch.state) == Idle && button.dispatch.needsUpdating
      ensures button.dispatch.hasCallback == hasCallback && button.dispatch.callbackCalls == []
      ensures button.titleLen == |title| && button.boundingBox == boundingBox && button.style == style
      ensures button.uploads == []
      ensures router.listeners == old(router.listeners) + [Some(NewListener(boundingBox))]
      ensures button.handle.router == router && button.handle.index == old(|router.listeners|)
    {
      var dispatch := new ButtonDispatch(hasCallback);
      var handle := router.RegisterListener(boundingBox);
      button := new Button(|title|, boundingBox, dispatch, handle, style);
    }

    /** `prepare_button_for_drawing`: consumes the flag and refreshes the button's
        GPU side exactly when it was set, with the style of the current state. */
    method PrepareButtonForDrawing(button: Button)
      modifies button.dispatch`needsUpdating, button`uploads
      ensures !button.dispatch.needsUpdating
      ensures button.uploads == old(button.uploads) +
                if old(button.dispatch.needsUpdating)
                then [StyleUpload(button.style.StateStyleFor(CastFromRepr(button.dispatch.state)), button.boundingBox)]
                else []
    {
      var styleNeedsUpdating := button.dispatch.needsUpdating;
      button.dispatch.needsUpdating := false;
      if styleNeedsUpdating {
        Update(button);
      }
    }

    /** `update`: hands the rectangle and text the style of the current state. */
    method Update(button: Button)
      modifies button`uploads
      ensures button.uploads == old(button.uploads) +
                [StyleUpload(button.style.StateStyleFor(CastFromRepr(button.dispatch.state)), button.boundingBox)]
    {
      var state := button.State();
      var stateStyle := button.style.StateStyleFor(state);
      button.uploads := button.uploads + [StyleUpload(stateStyle, button.boundingBox)];
    }
  }
}
