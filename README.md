# uitest layout, input and view core in Dafny

This project models the core of `uitest`, a small retained-mode GUI toolkit
drawn with wgpu. It covers these parts:

- **Geometry.** Points, sizes, bounds and border line widths
  (`src/element/rect.rs`). There is also the axis algebra that reads them along
  a layout axis ("alpha") and its cross axis ("beta") (`src/view/axis.rs`).
- **Mouse-event router** (`src/mouse_event.rs`). It keeps a table of listener
  slots. Each slot has bounds, a hover flag and one held flag per mouse button.
  After every window event the router re-scans the table and hands each
  listener its hover and button edges.
- **Push button** (`src/button.rs`). A four-state machine driven by those
  events. It has a sticky "needs updating" flag that the drawing pass consumes.
- **Two layout stacks and a container.**
  - The builder-based `Stack` (`src/layout/stack.rs`).
  - The older `StackView` (`src/view/stack.rs`).
  - The single-subview `Container` (`src/layout/container.rs`).

  Each measures its subviews and then walks them, handing each one its bounds.
- **Wrapper views** (`src/view/util_views.rs`): spacer, spread, padded and
  ratio-padded.
- **Font atlas lookup and glyph walk** (`src/element/text.rs`). They turn a
  string into GPU text instances.
- **Rectangle, text and image views** (`src/view/rect.rs`, `src/view/text.rs`,
  `src/view/image.rs`). Each has a dirty-flag protocol: setters raise a flag,
  and the prepare pass uploads to the GPU element and clears it.

Modelling choices:

- **Floats.** `f32` is the datatype `Floats.Float`: exact reals plus both
  infinities and NaN, with Rust's `f32::min`/`f32::max` treatment of NaN.
- **Subviews.** A subview is represented by the size it reports. The bounds a
  layout hands out are recorded in a `placements` sequence.
- **GPU elements.** A GPU element is a value that records what it was last
  given.
- **Listener objects.** What the router hands to listener objects is an
  appended `dispatched` trace.
- **Loops.** Each loop of the source is a Dafny `method` with its loop. Its
  `ensures` ties it to a recursive specification function (`Walk`, `ViewWalk`,
  `ScanTrace`, `InstanceWalk`, `LongestRun`). The layout, routing and text
  properties are then proved as lemmas about those functions.

Source paths below are relative to the repository root.

## Model

| member | source | states |
|---|---|---|
| Floats.ShrinkFactor | src/layout/stack.rs:188-191 | `(a / b).min(1.)` is never NaN and never above one. A zero denominator with a non-negative numerator gives one, and an infinite denominator gives zero. For finite positive operands the result is `a/b` below one and one otherwise. |
| Rect.Translate | src/layout/stack.rs:222-225 | Point plus vector adds finite components. |
| Rect.RectSize.Min | src/layout/container.rs:198 | Component-wise `f32::min` of two sizes. |
| Rect.RectSize.Max | src/layout/container.rs:197 | Component-wise `f32::max` of two sizes. |
| Rect.Bounds.XMax | src/element/rect.rs:60-62 | The right edge is the origin's x plus the width. |
| Rect.Bounds.YMax | src/element/rect.rs:64-66 | The bottom edge is the origin's y plus the height. |
| Rect.ContainsFinite | src/element/rect.rs:84-89 | `contains` is exactly membership in the closed real rectangle, for finite bounds. |
| Rect.Bounds.WithPadding | src/element/rect.rs:91-98 | Moves the origin in by the padding and takes the padding off both sides of each length. |
| Rect.WithPaddingInverse | src/element/rect.rs:91-98 | Padding by `p` and then by `-p` gives finite bounds back. |
| Rect.Bounds.WithOrigin | src/element/rect.rs:100-102 | Replaces the origin and keeps the size. |
| Rect.Bounds.WithSize | src/element/rect.rs:104-106 | Replaces the size and keeps the origin. |
| Rect.LineWidth.ToArray | src/element/rect.rs:169-179 | A uniform width repeats four times; per-border widths come in left, top, right, bottom order. |
| Rect.LineWidth.NormalizedIn | src/element/rect.rs:181-189 | Always per-border: left and right divided by the width, top and bottom by the height. |
| Rect.LineWidth.SetLeft | src/element/rect.rs:191-199 | Per-border, with only the left width replaced. |
| Rect.LineWidth.SetTop | src/element/rect.rs:201-209 | Per-border, with only the top width replaced. |
| Rect.LineWidth.SetRight | src/element/rect.rs:211-219 | Per-border, with only the right width replaced. |
| Rect.LineWidth.SetBottom | src/element/rect.rs:221-229 | Per-border, with only the bottom width replaced. |
| Rect.FromArray | src/element/rect.rs:232-241 | The array conversion is per-border and inverts `ToArray`. |
| Rect.FromArrayToArray | src/element/rect.rs:232-241 | A round trip through the array keeps the four widths. It loses only the uniform form. |
| Rect.SetAllBorders | src/element/rect.rs:191-229 | Setting the four borders one by one to `w` gives the widths of `Uniform(w)`, whatever the start. |
| Color.RgbaFromHex | src/wgpu_utils/color.rs:34-42 | Each channel is one big-endian byte of `u` over 255: red the top byte, then green, blue, and alpha the bottom byte. |
| Color.HexBytesRecompose | src/wgpu_utils/color.rs:34-42 | The four bytes the channels read recompose the hex value: none is lost or read twice. |
| Color.FromHexZero | src/wgpu_utils/color.rs:34-42 | `from_hex(0)` is all-zero (the default colour). |
| Color.FromHexWhiteLiteral | src/wgpu_utils/color.rs:34-42 | `from_hex(0xFFFFFF)` is (0, 1, 1, 1): opaque, with a zero red channel. |
| Axes.PointOnAxis | src/view/axis.rs:22-27 | The point built on an axis reads back the given alpha and beta; vertical swaps x and y. |
| Axes.PointBeta | src/view/axis.rs:36-41 | Beta is alpha on the other axis. |
| Axes.PointWithAlpha | src/view/axis.rs:43-48 | Writing through `alpha_mut` sets alpha and leaves beta. |
| Axes.PointWithBeta | src/view/axis.rs:50-55 | Writing through `beta_mut` sets beta and leaves alpha. |
| Axes.PointReassemble | src/view/axis.rs:22-41 | Every point is rebuilt from its own alpha and beta. |
| Axes.SizeOnAxis | src/view/axis.rs:71-76 | The size built on an axis reads back the given lengths; vertical swaps width and height. |
| Axes.LengthBeta | src/view/axis.rs:85-90 | The beta length is the alpha length on the other axis. |
| Axes.SizeWithLengthAlpha | src/view/axis.rs:92-97 | Sets the alpha length and leaves the beta length. |
| Axes.SizeWithLengthBeta | src/view/axis.rs:99-104 | Sets the beta length and leaves the alpha length. |
| Axes.SizeScaledOnAxis | src/layout/stack.rs:211-213 | Scales the alpha length by `ka` and the beta length by `kb`. |
| Axes.SizeMinOnAxis | src/layout/stack.rs:219 | The component-wise minimum commutes with reading alpha or beta. |
| Axes.AlphaMin | src/view/axis.rs:126-131 | The alpha minimum is the origin's alpha: x when horizontal, y when vertical. |
| Axes.BetaMin | src/view/axis.rs:133-138 | The beta minimum is the origin's beta, which is the alpha minimum on the other axis. |
| Axes.BoundsLengthAlpha | src/view/axis.rs:154-156 | Delegates to the size's alpha length. |
| Axes.BoundsLengthBeta | src/view/axis.rs:158-160 | Delegates to the size's beta length, which is the alpha length on the other axis. |
| Axes.BoundsWithAlphaMin | src/view/axis.rs:140-145 | Sets the alpha minimum; the beta minimum and the size are unchanged. |
| Axes.BoundsWithBetaMin | src/view/axis.rs:147-152 | Sets the beta minimum; the alpha minimum and the size are unchanged. |
| Axes.BoundsWithLengthAlpha | src/view/axis.rs:162-164 | Sets the alpha length; the origin and the beta length are unchanged. |
| Axes.BoundsWithLengthBeta | src/view/axis.rs:166-168 | Sets the beta length; the origin and the alpha length are unchanged. |
| MouseEvents.ButtonIndex | src/mouse_event.rs:153-160 | `MouseInput` stores each of the five named buttons in its own slot below five. `Other` buttons have no slot. |
| MouseEvents.ButtonAtAsWritten | src/mouse_event.rs:215-222 | As written, the re-scan names each of the five slots after a named button, never `Other`. |
| MouseEvents.ButtonAtAsWrittenSwaps | src/mouse_event.rs:215-222 | As written, the re-scan names slot 3 (where Back is stored) Forward, and slot 4 (Forward's) Back. |
| MouseEvents.ButtonAt | src/mouse_event.rs:215-222 | Intended naming, which the re-scan does not use: slot `i` is named after the button stored in it. |
| MouseEvents.ButtonAtIndex | src/mouse_event.rs:153-160 | Under the intended naming, slot `i` is named `b` exactly when `MouseInput` stores `b` in slot `i`. |
| MouseEvents.ButtonAtAsWrittenInjective | src/mouse_event.rs:215-222 | As written, the five slots still get five different names, and only slot 0 is `Left`. |
| MouseEvents.ButtonAtInjective | src/mouse_event.rs:215-222 | Under the intended naming, no two slots get the same name. |
| MouseEvents.BackPressReportedAsForward | src/mouse_event.rs:153-160 | As written, a Back press (slot 3) produces `ButtonDown(Forward)`, and a Forward release (slot 4) produces `ButtonUp(Back)`. |
| MouseEvents.ToLogical | src/mouse_event.rs:139 | The logical position is the physical one divided by the scale factor. |
| MouseEvents.NewListener | src/mouse_event.rs:86-91 | A registered listener keeps its bounds, starts unhovered and holds no button. |
| MouseEvents.HoverEventsSpec | src/mouse_event.rs:190-207 | `HoveringStart` is sent exactly on entering and `HoveringFinish` exactly on leaving; otherwise nothing. |
| MouseEvents.ButtonEdgeSpec | src/mouse_event.rs:223-245 | A release is sent exactly when a held flag is dropped, with `inside`. A press is sent exactly when an unheld button is down with the cursor inside, with "started inside" = hovered before the scan. The kept flag is `pressed && (held \|\| inside)`. Events name slot `i` by the as-written naming. |
| MouseEvents.ScanListener | src/mouse_event.rs:186-246 | A scanned listener keeps its bounds, is hovered exactly when the cursor is inside, and keeps the flags above. |
| MouseEvents.Tag | src/mouse_event.rs:193-243 | Each event is handed to one slot with the scan's cursor, one dispatch per event, in order. |
| MouseEvents.ScannedTable | src/mouse_event.rs:186-246 | A re-scan keeps the table's length and the empty slots. |
| MouseEvents.TagConcat | src/mouse_event.rs:193-243 | Tagging distributes over concatenation. |
| MouseEvents.TagMembers | src/mouse_event.rs:193-243 | Every tagged dispatch carries the slot, the cursor and one of the given kinds. |
| MouseEvents.ButtonEventsAreButtons | src/mouse_event.rs:213-246 | The button loop sends only button events, each about a slot it visited. |
| MouseEvents.ButtonEventsExact | src/mouse_event.rs:223-245 | A release (press) of slot `i` is among the events of slots below `k` exactly when that slot's edge is that release (press). The button is named as written. |
| MouseEvents.ButtonEventsEmpty | src/mouse_event.rs:213-246 | The button loop is silent exactly when no held flag changes. |
| MouseEvents.ListenerEventsExact | src/mouse_event.rs:186-246 | One listener gets its hover edge first, then the edges of its button slots in slot order, named as written. |
| MouseEvents.ListenerEventsIffChanged | src/mouse_event.rs:186-246 | A listener is sent something exactly when the re-scan changes its state. |
| MouseEvents.ListenerSettles | src/mouse_event.rs:186-246 | A second re-scan with the same buttons, and a cursor on the same side of its bounds, sends a listener nothing. |
| MouseEvents.SlotTraceMembers | src/mouse_event.rs:188-246 | Everything slot `i` is sent carries its index and the scan's cursor. |
| MouseEvents.ScanTraceSlots | src/mouse_event.rs:188-246 | A re-scan dispatches only to live slots. |
| MouseEvents.EmptySlotSilent | src/mouse_event.rs:111-116 | An unregistered slot is never sent anything. |
| MouseEvents.SlotSettles | src/mouse_event.rs:188-246 | After a re-scan, a second one under the same conditions sends slot `i` nothing. |
| MouseEvents.ScanSettles | src/mouse_event.rs:180-249 | Re-scanning is idempotent: a second re-scan, with the same buttons and the cursor on the same side of every listener, dispatches nothing. |
| MouseEvents.SlotTraceEmptyIffUnchanged | src/mouse_event.rs:188-246 | A slot is sent nothing exactly when the re-scan leaves it unchanged. |
| MouseEvents.ScanQuietIffUnchanged | src/mouse_event.rs:180-249 | `scan_events` asks for a redraw exactly when it changes the table. |
| MouseEvents.ScanTraceStep | src/mouse_event.rs:188 | The dispatches of slots `[0, n+1)` are those of `[0, n)` followed by slot `n`'s. |
| MouseEvents.SlotLocal | src/mouse_event.rs:188-246 | What a re-scan does to slot `i` depends on that slot alone. |
| MouseEvents.SlotsDoneStep | src/mouse_event.rs:188-246 | Scanning one more slot extends the partial re-scan by that slot. |
| MouseEvents.SlotsDoneAll | src/mouse_event.rs:180-249 | Once every slot is scanned, the result is the full re-scan: table, dispatches and redraw flag. |
| MouseEvents.MouseEventRouter.constructor | src/mouse_event.rs:70-79 | No cursor, scale factor 1, the given bounds, no listeners, flag clear, no button pressed. |
| MouseEvents.MouseEventRouter.RegisterListener | src/mouse_event.rs:81-98 | Appends a fresh listener and returns a handle to its index. |
| MouseEvents.MouseEventRouter.UnregisterListener | src/mouse_event.rs:100-103 | Empties that slot and nothing else. |
| MouseEvents.MouseEventRouter.UpdateBounds | src/mouse_event.rs:105-109 | An empty or out-of-range slot panics, and then nothing changes; it panics exactly then. Otherwise only that listener's bounds move, and the bounds-changed flag is raised. |
| MouseEvents.MouseEventRouter.ScanHover | src/mouse_event.rs:190-207 | Sets the hover flag to "inside" and dispatches the hover edge. |
| MouseEvents.MouseEventRouter.ScanButton | src/mouse_event.rs:213-245 | One button slot: keeps the partial-loop invariant one slot further. The edge names the slot as written (3 is `Forward`, 4 is `Back`). |
| MouseEvents.MouseEventRouter.ScanButtons | src/mouse_event.rs:211-246 | The five slots in order: new flags, dispatched edges with the as-written names, and whether any was sent. |
| MouseEvents.MouseEventRouter.ScanSlot | src/mouse_event.rs:188-246 | Re-scans one listener slot: updates it and dispatches its hover edge and its button edges, the latter with the as-written names. |
| MouseEvents.MouseEventRouter.ScanAllSlots | src/mouse_event.rs:188-248 | The loop yields the scanned table and the full trace, with button edges named as written. It asks for a redraw exactly when something was dispatched. |
| MouseEvents.MouseEventRouter.ScanEvents | src/mouse_event.rs:180-249 | With no cursor, nothing changes and no redraw. Otherwise it has the outcome of a full re-scan, with button edges named as written. |
| MouseEvents.MouseEventRouter.WindowEvent | src/mouse_event.rs:125-177 | Scale-factor change, cursor move (stored logical), cursor left (cleared), `MouseInput` (slot flag set, `Other` ignored) and redraw (flag consumed, scan only if it was set) each update state and then re-scan. Other events do nothing. A Back (Forward) press or release reaches listeners under the name `Forward` (`Back`), as the program sends it. |
| MouseEvents.MouseEventRouter.SetBounds | src/mouse_event.rs:251-253 | Stores the bounds. |
| MouseEvents.MouseEventRouter.GetBounds | src/mouse_event.rs:255-257 | Returns the stored bounds. |
| MouseEvents.MouseEventRouter.GetScaleFactor | src/mouse_event.rs:259-262 | Returns the stored scale factor. |
| MouseEvents.MouseEventRouter.SetScaleFactor | src/mouse_event.rs:264-267 | Stores the scale factor. |
| MouseEvents.MouseEventRouter.GetCursorPosition | src/mouse_event.rs:269-271 | Returns the stored cursor position. |
| MouseEvents.MouseEventRouter.SetCursorPosition | src/mouse_event.rs:273-278 | Stores the position and returns the value now stored. |
| MouseEvents.MouseEventRouter.Release | src/mouse_event.rs:315-321 | After the last strong reference goes, handles can no longer reach the router. |
| MouseEvents.ListenerHandle.constructor | src/mouse_event.rs:94-97 | A handle holds the router reference and the slot index. |
| MouseEvents.ListenerHandle.Clone | src/mouse_event.rs:298-305 | A clone refers to the same router and slot. |
| MouseEvents.ListenerHandle.UpdateBounds | src/mouse_event.rs:323-329 | A dead router is a silent no-op. A live router panics exactly when the slot is empty or out of range, changing nothing. Otherwise the slot's listener moves and the bounds-changed flag is raised. |
| MouseEvents.ListenerHandle.Drop | src/mouse_event.rs:315-321 | Empties the slot if the router is alive; otherwise a silent no-op. |
| MouseEvents.UpdateAfterCloneDropped | src/mouse_event.rs:298-329 | Clone a handle, drop the original, and move the listener through the clone: with a live router this always panics, and the slot is left empty. |
| Buttons.ReprRoundTrip | src/button.rs:30-47 | Storing a state and loading it back gives the same state, and every stored discriminant decodes. |
| Buttons.StateStyleChoice | src/button.rs:58-65 | `Pressed` uses the pressed style, `Hovered` and `PressedOutside` the hovered style, and `Idle` the idle style. When the pressed style differs from the other two, a button looks pressed exactly in state `Pressed`. |
| Buttons.WithFieldOnly | src/button.rs:67-102 | `with_line_width` / `with_font_size` change that field of every state's style and nothing else. |
| Buttons.TransitionHover | src/button.rs:252-256 | Entering: idle→hovered, pressed-outside→pressed. Leaving: hovered→idle, pressed→pressed-outside. Other states stay. |
| Buttons.TransitionButtons | src/button.rs:257-267 | A left press always presses. A left release goes to hovered or idle by `inside`. Other buttons change nothing. |
| Buttons.RunConcat | src/button.rs:248-276 | Running two batches of events in turn is running their concatenation. |
| Buttons.Derived | src/button.rs:20-27 | The state matching a slot's flags: pressed states ⇔ left held, hovered looks ⇔ hovered. |
| Buttons.RunOtherButtons | src/mouse_event.rs:211-246 | Button slots 1-4 never move a button's state. |
| Buttons.OtherEdgeKeeps | src/button.rs:257-268 | An edge of a non-left slot leaves every state alone. |
| Buttons.HoverCoherent | src/button.rs:252-256 | The hover edge moves a coherent state to the one for the new hover flag. |
| Buttons.LeftEdgeCoherent | src/button.rs:257-267 | The left-button edge moves a coherent state to the one for the new left flag. |
| Buttons.RunListenerEvents | src/mouse_event.rs:186-246 | One re-scan moves a button by its hover edge, then its left edge. |
| Buttons.ScanKeepsButtonCoherent | src/button.rs:248-276 | A button whose state matches its slot before a re-scan still matches it afterwards, whatever the cursor and buttons. |
| Buttons.ButtonDispatch.constructor | src/button.rs:142-146 | A new dispatch is idle, needs updating, and has made no callback calls. |
| Buttons.ButtonDispatch.GetState | src/button.rs:238-240 | Loads the stored state. |
| Buttons.ButtonDispatch.SetState | src/button.rs:242-244 | Stores the state. |
| Buttons.ButtonDispatch.MouseEvent | src/button.rs:248-276 | Moves the state by `Transition` and ORs "changed" into the flag. Calls the callback, if any, with the event after the state is stored. |
| Buttons.Button.constructor | src/button.rs:151-159 | Holds the title length, box, dispatch, handle and style; nothing uploaded. |
| Buttons.Button.State | src/button.rs:225-227 | Reads the dispatch's state. |
| Buttons.Button.BoundingBox | src/button.rs:221-223 | Returns the bounding box. |
| Buttons.ButtonRenderer.constructor | src/button.rs:120-130 | Holds the router it registers buttons with. |
| Buttons.ButtonRenderer.CreateButton | src/button.rs:132-159 | A new button is idle and needs updating. Its listener is appended to the router with the box, and the handle names that slot. |
| Buttons.ButtonRenderer.PrepareButtonForDrawing | src/button.rs:161-169 | Clears the flag. Refreshes the GPU side exactly when the flag was set, with the current state's style. |
| Buttons.ButtonRenderer.Update | src/button.rs:176-203 | Uploads the style of the current state at the bounding box. |
| LayoutStacks.AlignmentRatio | src/layout/stack.rs:45-54 | A `Ratio(r)` alignment has ratio `r`. |
| LayoutStacks.AlignmentConversionsRoundTrip | src/layout/stack.rs:56-97 | The four `From` conversions are two pairs of inverse bijections. |
| LayoutStacks.AlignmentRatios | src/layout/stack.rs:45-76 | Centre is 0.5. Left and top are 0. Right and bottom are 1. |
| LayoutStacks.GapsWalkedCount | src/layout/stack.rs:163-168 | The gaps the walk inserts, plus the trailing one for `Omnipadded`, are `n_paddings`. |
| LayoutStacks.AlphaSumFinite | src/layout/stack.rs:148-161 | With finite alpha lengths, the accumulated `alpha_sum` is their real sum. |
| LayoutStacks.BetaMaxFiniteBounds | src/layout/stack.rs:148-161 | `beta_max_finite` is finite and non-negative. It is at least every finite beta and is zero or one of them. |
| LayoutStacks.BetaMaxBounds | src/layout/stack.rs:148-161 | With no NaN beta, `beta_max` bounds every beta from above. |
| LayoutStacks.Plan | src/layout/stack.rs:181-200 | Both shrink factors, the leading padding and the gap, as `apply_bounds` derives them. |
| LayoutStacks.WalkStepNum | src/layout/stack.rs:203-228 | One interpadded walk step with known numbers: the offset moves past the subview, and the next start adds the gap. |
| LayoutStacks.WalkPlacements | src/layout/stack.rs:203-228 | The walk places every subview once, in order, at the bounds computed from where it starts. |
| LayoutStacks.PlacementFits | src/layout/stack.rs:214-225 | A placed subview never exceeds the stack's beta length, nor the alpha room left at its start. |
| LayoutStacks.RealAlphaSumPrefix | src/layout/stack.rs:150 | Sums of non-negative alpha lengths grow with the prefix. |
| LayoutStacks.GapLengthMonotone | src/layout/stack.rs:206-211 | The gap length walked grows with the number of subviews. |
| LayoutStacks.GapLengthCount | src/layout/stack.rs:206-211 | The gap length walked is the number of gaps times the gap. |
| LayoutStacks.PlacedAlphaUnclipped | src/layout/stack.rs:214-219 | With no shrinking and room left, a subview keeps its alpha length. |
| LayoutStacks.StartOfNum | src/layout/stack.rs:206-211 | A subview starts one gap after the offset reached, if a gap precedes it. |
| LayoutStacks.WalkStepUnclipped | src/layout/stack.rs:203-228 | One step with room to spare adds the gap and the subview's length. |
| LayoutStacks.UnclippedRoom | src/layout/stack.rs:203-228 | When lengths and gaps fit, every subview still has room at its start. |
| LayoutStacks.WalkUnclipped | src/layout/stack.rs:203-228 | When nothing shrinks and everything fits, the walk reaches leading + lengths + gaps: no subview is clipped. |
| LayoutStacks.AutoGapTotal | src/layout/stack.rs:197-198 | Splitting the leftover evenly between `n - 1` gaps adds up to it. |
| LayoutStacks.PlanAutoFits | src/layout/stack.rs:181-200 | Without a fixed padding and with room, nothing shrinks along the axis and nothing leads. |
| LayoutStacks.AutoPaddingFills | src/layout/stack.rs:181-228 | Without a fixed padding, an interpadded stack of two or more that fits ends exactly at the far edge. |
| LayoutStacks.ExampleSums | src/layout/stack.rs:148-161 | The example subviews (50, 80, 30 wide, 20 high) sum to 160, with maximum beta 20. |
| LayoutStacks.PlacedAt | src/layout/stack.rs:214-225 | A full-height subview of a stack at the origin is placed at `(x, 0)` at its scaled size. |
| LayoutStacks.ExampleShrinks | src/layout/stack.rs:211-213 | Scaling the example subviews by `k` along the axis. |
| LayoutStacks.ThreeWalk | src/layout/stack.rs:203-228 | A three-subview interpadded walk is the three placements in order, one gap apart. |
| LayoutStacks.MinAlphaNum | src/layout/stack.rs:183-185 | `min_alpha` over finite numbers is the sum plus `n_paddings` times the padding. |
| LayoutStacks.FixedPlanFields | src/layout/stack.rs:181-200 | A fixed padding's plan in terms of the prelude's float operations. |
| LayoutStacks.PlanFixedFits | src/layout/stack.rs:181-200 | With a fixed padding and room, nothing shrinks. The gap is the padding, and the leading offset is the alignment's share of the leftover. |
| LayoutStacks.PlanFixedShrinks | src/layout/stack.rs:181-200 | With a fixed padding and too little room, the axis shrinks by bounds / `min_alpha`, the gap shrinks with it, and nothing leads. |
| LayoutStacks.WidePlan | src/layout/stack.rs:181-200 | The example in 500 units: nothing shrinks, the gaps are 10, and the 320 left over goes before the subviews by the alignment. |
| LayoutStacks.NarrowPlan | src/layout/stack.rs:181-200 | The example in 100 units: the axis shrinks by 100/180 and the gap with it. |
| LayoutStacks.ExamplePlacements | src/layout/stack.rs:203-228 | The bounds each example subview gets where the walk reaches it. |
| LayoutStacks.ExampleWalk | src/layout/stack.rs:203-228 | The example walk: each subview starts one gap after the previous one ends. |
| LayoutStacks.UnshrunkWalk | src/layout/stack.rs:203-228 | Unshrunk, the example subviews sit at `l`, `l+60`, `l+150`, at their own sizes. |
| LayoutStacks.WideExample | src/layout/stack.rs:181-228 | In 500 units, leading alignment places the subviews at x = 0, 60, 150 (180 used); centre shifts them right by the leftover's half. |
| LayoutStacks.WidePlanned | src/layout/stack.rs:181-200 | The 500-wide plan is an unshrunk example plan. |
| LayoutStacks.CentreExample | src/layout/stack.rs:181-228 | With the default centre alignment the subviews sit at x = 160, 220, 310. |
| LayoutStacks.ShrinkExample | src/layout/stack.rs:181-228 | In 100 units everything along the axis, padding included, scales by 100/180; the last subview ends at 100. |
| LayoutStacks.NarrowPlanned | src/layout/stack.rs:181-200 | The 100-wide plan shrinks by 100/180 and has no leading padding. |
| LayoutStacks.NarrowWalk | src/layout/stack.rs:203-228 | The walk of the shrunk example plan. |
| LayoutStacks.PlacedUnclipped | src/layout/stack.rs:211-219 | A scaled size that fits what is left is handed out unchanged. |
| LayoutStacks.Stack.constructor | src/layout/stack.rs:133-146 | Centred on both axes, interpadded, computed padding, independent shrinking, no subviews, zero accumulators. |
| LayoutStacks.Stack.Subview | src/layout/stack.rs:148-161 | Appends the subview's size and keeps the three accumulators equal to their definitions. |
| LayoutStacks.Stack.PreferredSize | src/layout/stack.rs:172-179 | Alpha is the sum plus `n_paddings` fixed paddings; beta is the largest beta. |
| LayoutStacks.Stack.CurrentPlan | src/layout/stack.rs:181-200 | The plan built from the accumulators is the plan built from the subviews themselves. |
| LayoutStacks.Stack.ApplyBounds | src/layout/stack.rs:181-229 | Hands every subview, in order, the bounds the walk computes. |
| LayoutStacks.WalkStack | src/layout/stack.rs:201-228 | The loop yields exactly the walk's placements. |
| LayoutStacks.PlaceSubview | src/layout/stack.rs:206-227 | One iteration is one step of the walk. |
| LayoutStacks.StackBuilder.constructor | src/layout/stack.rs:249-253 | Builds a stack with the defaults of `Stack::new`. |
| LayoutStacks.StackBuilder.Subview | src/layout/stack.rs:255-257 | Adds the subview to the stack. |
| LayoutStacks.StackBuilder.SetAlignmentVertical | src/layout/stack.rs:259-264 | Vertical alignment is cross-axis for a horizontal stack and along the axis for a vertical one; the other alignment is kept. |
| LayoutStacks.StackBuilder.SetAlignmentHorizontal | src/layout/stack.rs:266-271 | Horizontal alignment is along the axis for a horizontal stack and cross-axis for a vertical one; the other alignment is kept. |
| LayoutStacks.StackBuilder.SetPaddingType | src/layout/stack.rs:276-278 | Stores the padding type. |
| LayoutStacks.StackBuilder.SetFixedPadding | src/layout/stack.rs:286-288 | Stores the fixed padding. |
| LayoutStacks.StackBuilder.SetShrinkTogether | src/layout/stack.rs:294-296 | Stores the flag. |
| LayoutStacks.StackBuilder.Finish | src/layout/stack.rs:298-300 | Yields the configured stack. |
| Containers.AsFixed | src/layout/container.rs:27-33 | Some exactly for a fixed padding, with its amount. |
| Containers.PaddingNoSpread | src/layout/container.rs:129-158 | With no `Spread` edge each edge is evaluated alone: `Fixed(v)` is `v`, and `RatioOfViewSize(r)` is `r` times the view length. |
| Containers.PaddingOneSpread | src/layout/container.rs:145-152 | With one `Spread` edge the two paddings add up to the remaining length. |
| Containers.PaddingBothSpread | src/layout/container.rs:12-23 | Both `Spread`: both edges get ratio × remaining. The trailing edge gets `(1 - ratio)` of a non-zero remainder only when the ratio is 0.5. |
| Containers.ContainerConfig.RequestedSize | src/layout/container.rs:166 | The override if there is one, else the measured size. |
| Containers.PreferredSizeOf | src/layout/container.rs:165-185 | Each axis is the paddings against infinite room around the requested length. |
| Containers.PreferredLengthNoSpread | src/layout/container.rs:165-185 | With no `Spread` edge and finite paddings, the length is leading + view + trailing. |
| Containers.PreferredLengthOneSpread | src/layout/container.rs:165-185 | One `Spread` edge makes the container ask for an infinite length on that axis. |
| Containers.FixedOrZero | src/layout/container.rs:190-191 | The fixed amount, or zero. |
| Containers.LayoutAxis | src/layout/container.rs:187-223 | The start is bounds minimum + leading padding. The scaled length is length × shrink, and the shrink is at most one and never NaN. |
| Containers.ClipFits | src/layout/container.rs:225-230 | After the clip the subview ends by the far edge, or is empty if it starts beyond it; one that fitted is untouched. |
| Containers.SubviewWithinBounds | src/layout/container.rs:187-231 | The container never hands its subview bounds past its own right or bottom edge. |
| Containers.SpreadBothFitted | src/layout/container.rs:188-198 | A requested length that fits is kept. |
| Containers.SpreadBothPaddings | src/layout/container.rs:198-211 | Both `Spread` edges get ratio × slack. |
| Containers.SpreadBothUnshrunk | src/layout/container.rs:213-218 | Paddings and length that fit give a shrink of one. |
| Containers.SpreadBothLayout | src/layout/container.rs:187-223 | Both `Spread`, a ratio in [0, ½] and a fitting subview: it keeps its length and starts at ratio × slack. |
| Containers.SpreadBothPlacement | src/layout/container.rs:187-231 | As above, after the clip; ratio ½ leaves equal gaps before and after (centred). |
| Containers.Container.Config | src/layout/container.rs:42-52 | The configuration carries the measured and override sizes. |
| Containers.Container.constructor | src/layout/container.rs:55-72 | Measures the subview once. Zero fixed padding on all edges, spread ratios ½, no override. |
| Containers.Container.SetPaddingLeft | src/layout/container.rs:74-77 | Stores the left padding. |
| Containers.Container.SetPaddingRight | src/layout/container.rs:79-82 | Stores the right padding. |
| Containers.Container.SetPaddingTop | src/layout/container.rs:84-87 | Stores the top padding. |
| Containers.Container.SetPaddingBottom | src/layout/container.rs:89-92 | Stores the bottom padding. |
| Containers.Container.SetPadding | src/layout/container.rs:94-101 | Sets all four edges. |
| Containers.Container.SetSpreadRatioHorizontal | src/layout/container.rs:103-106 | Stores the ratio. |
| Containers.Container.SetSpreadRatioVertical | src/layout/container.rs:108-111 | Stores the ratio. |
| Containers.Container.OverrideSubviewSize | src/layout/container.rs:121-127 | Stores the override. |
| Containers.Container.SubviewSize | src/layout/container.rs:113-118 | The measured size, whatever the override. |
| Containers.Container.PreferredSize | src/layout/container.rs:165-185 | Returns the preferred size of its configuration. |
| Containers.Container.ApplyBounds | src/layout/container.rs:187-232 | Hands the subview the computed, clipped bounds. |
| StackViews.ViewPadding | src/view/stack.rs:146-152 | The fixed padding, or (length − total) / `n_paddings`. |
| StackViews.ViewPlan | src/view/stack.rs:142-156 | The gap after every subview, and a start at alpha min, plus one gap when omnipadded. |
| StackViews.ViewWalk | src/view/stack.rs:157-181 | One bounds per visited subview. |
| StackViews.ViewWalkPrefix | src/view/stack.rs:157-181 | Subviews are handed out in order: a longer walk extends a shorter one. |
| StackViews.PlaceInStackFits | src/view/stack.rs:162-175 | A placed subview never runs past the far end of the axis, nor beyond the cross length. |
| StackViews.PlaceInStackCentred | src/view/stack.rs:171-172 | A subview no longer than the bounds across the axis is centred across it. |
| StackViews.GapTotalMonotone | src/view/stack.rs:177-178 | Total gap length grows with the count. |
| StackViews.PlaceInStackUnclipped | src/view/stack.rs:162-170 | A subview that fits what is left keeps its length. |
| StackViews.ViewWalkStepUnclipped | src/view/stack.rs:162-179 | One step from a finite offset adds the gap and the subview's length. |
| StackViews.ViewWalkUnclipped | src/view/stack.rs:157-181 | While everything fits, no subview is clipped; the offset is start + lengths + gaps. |
| StackViews.AutoPaddingFillsView | src/view/stack.rs:141-181 | Without a fixed padding, two or more subviews that fit: the last ends at the far edge (interpadded) or one gap before it (omnipadded). |
| StackViews.AutoPaddedLastEnd | src/view/stack.rs:157-181 | Where the last subview of an evenly padded plan ends. |
| StackViews.AutoViewPlan | src/view/stack.rs:146-156 | The computed gap is the leftover over `n_paddings`, non-negative. |
| StackViews.LastSubviewEnd | src/view/stack.rs:157-181 | When everything fits, the last subview keeps its length and ends after all lengths and inner gaps. |
| StackViews.ShareEvenly | src/view/stack.rs:149-151 | A leftover shared equally between the gaps fills it exactly. |
| StackViews.StackView.constructor | src/view/stack.rs:34-45 | Interpadded, computed padding, no background, nothing measured. |
| StackViews.StackView.SetAxis | src/view/stack.rs:55-63 | Stores the axis. |
| StackViews.StackView.SetPaddingType | src/view/stack.rs:65-73 | Stores the padding type. |
| StackViews.StackView.SetFixedPadding | src/view/stack.rs:75-83 | Stores the fixed padding. |
| StackViews.StackView.BackgroundColor | src/view/stack.rs:85-91 | The background's fill, or `from_hex(0)` with no background. |
| StackViews.StackView.SetBackgroundColor | src/view/stack.rs:93-102 | A zero-alpha colour is ignored. Otherwise a missing background is created at zero size. The background is then recoloured and flagged for update; its other parameters, size and element are kept. |
| StackViews.StackView.PreferredSize | src/view/stack.rs:117-137 | Remembers every size and their alpha total; alpha is total + paddings, beta the largest. |
| StackViews.StackView.CurrentPlan | src/view/stack.rs:141-156 | The plan from the remembered sizes and total. |
| StackViews.StackView.Reached | src/view/stack.rs:157-161 | The walk reaches every subview unless fewer sizes were remembered. |
| StackViews.StackView.ApplyBounds | src/view/stack.rs:139-182 | The background gets the whole bounds and keeps its other parameters, size and element. Subviews get the walk's bounds in order; missing sizes give one warning. |
| StackViews.StackView.WalkSubviews | src/view/stack.rs:157-181 | The walk loop over the subviews, with its warning. |
| StackViews.StackView.PrepareForDrawing | src/view/stack.rs:184-200 | The background is prepared only when its fill is not transparent. Its parameters and size are kept either way. |
| StackViews.StackView.Draw | src/view/stack.rs:202-216 | The background is drawn only when its fill is not transparent. |
| StackViews.WalkPlan | src/view/stack.rs:157-181 | The loop yields exactly the walk's bounds. |
| StackViews.PlaceSubviewInStack | src/view/stack.rs:162-179 | One visit is one step of the walk. |
| RectViews.RectView.Params | src/view/rect.rs:115-122 | What `set_parameters` and the colour setters upload: bounds, line width and both colours. |
| RectViews.RectView.constructor | src/view/rect.rs:40-50 | White fill and line, no border, bounds at the origin with the size, needs update, no element. |
| RectViews.RectView.Default | src/view/rect.rs:25-37 | White fill, transparent line, zero size and bounds, needs update. |
| RectViews.RectView.SetFillColor | src/view/rect.rs:52-60 | Records the colour and raises the flag. |
| RectViews.RectView.SetLineColor | src/view/rect.rs:62-70 | Records the colour and raises the flag. |
| RectViews.RectView.SetLineWidth | src/view/rect.rs:72-80 | Records the width and raises the flag. |
| RectViews.RectView.SetSize | src/view/rect.rs:82-90 | Records the size and raises the flag. |
| RectViews.RectView.SetBounds | src/view/rect.rs:96-99 | Records the bounds and raises the flag. |
| RectViews.RectView.PreferredSize | src/view/rect.rs:103-105 | The size it was given. |
| RectViews.RectView.ApplyBounds | src/view/rect.rs:107-109 | As `set_bounds_`. |
| RectViews.RectView.PrepareForDrawing | src/view/rect.rs:111-130 | Creates the element once and always sets the projection. Uploads the parameters exactly when the flag was set, and clears it. |
| RectViews.RectView.Draw | src/view/rect.rs:132-140 | Draws exactly when the element exists and the flag is clear, with the current parameters. |
| UtilViews.PrepareBackground | src/view/util_views.rs:310-323 | A background with a visible fill is prepared; a transparent one is untouched. Its parameters and size are kept either way. |
| UtilViews.DrawBackground | src/view/util_views.rs:325-330 | A background is drawn exactly when its fill is visible and it is ready. |
| UtilViews.SpacerView.constructor | src/view/util_views.rs:18-20 | Holds the size. |
| UtilViews.SpacerView.SetSize | src/view/util_views.rs:22-30 | Stores the size. |
| UtilViews.SpacerView.PreferredSize | src/view/util_views.rs:34-36 | The size it was given. |
| UtilViews.SpacerView.ApplyBounds | src/view/util_views.rs:38 | Ignores the bounds. |
| UtilViews.SpreadSize | src/view/util_views.rs:94-101 | Infinite along the spread axis (both for `Both`); the subview's length across. |
| UtilViews.SpreadSizeDominates | src/view/util_views.rs:94-101 | The spread size never asks for less than the subview. |
| UtilViews.SpreadView.constructor | src/view/util_views.rs:124-138 | Holds the axis; nothing placed. |
| UtilViews.SpreadView.SetAxis | src/view/util_views.rs:140-148 | Stores the axis. |
| UtilViews.SpreadView.PreferredSize | src/view/util_views.rs:94-101 | The spread size of the subview's size. |
| UtilViews.SpreadView.ApplyBounds | src/view/util_views.rs:103-105 | Forwards the bounds unchanged. |
| UtilViews.PaddedPreferredSize | src/view/util_views.rs:275-282 | Each axis is leading + subview + trailing. |
| UtilViews.PaddedLengthFits | src/view/util_views.rs:295-304 | When the paddings fit, the length lies between zero and what they leave; otherwise zero. |
| UtilViews.PaddedOriginAsWritten | src/view/util_views.rs:295-297 | As written, the subview origin is the two paddings, whatever the bounds' origin. |
| UtilViews.PaddedSubviewEscapesBounds | src/view/util_views.rs:295-297 | As written, bounds that start right of the left padding do not contain the subview's origin. |
| UtilViews.PaddedSubviewBounds | src/view/util_views.rs:284-308 | Corrected: the same lengths, with the origin moved in from the bounds' origin by the paddings. |
| UtilViews.PaddedSubviewInside | src/view/util_views.rs:284-308 | Corrected: with paddings that fit, the subview lies inside the bounds, inset by the paddings. |
| UtilViews.PaddedPreferredRoundTrip | src/view/util_views.rs:275-308 | Laying the view out at its own preferred size gives the subview its measured size, inset by the paddings. |
| UtilViews.PaddedView.constructor | src/view/util_views.rs:180-191 | Zero paddings, nothing remembered, transparent zero-sized background. |
| UtilViews.PaddedView.SetPaddingLeft | src/view/util_views.rs:205-213 | Stores the left padding. |
| UtilViews.PaddedView.SetPaddingRight | src/view/util_views.rs:215-223 | Stores the right padding. |
| UtilViews.PaddedView.SetPaddingTop | src/view/util_views.rs:225-233 | Stores the top padding. |
| UtilViews.PaddedView.SetPaddingBottom | src/view/util_views.rs:235-243 | Stores the bottom padding. |
| UtilViews.PaddedView.SetPadding | src/view/util_views.rs:245-257 | Sets all four paddings. |
| UtilViews.PaddedView.SetBackgroundColor | src/view/util_views.rs:259-268 | Recolours the background, which then needs updating. |
| UtilViews.PaddedView.PreferredSize | src/view/util_views.rs:275-282 | Remembers the subview size and asks for it plus the paddings. |
| UtilViews.PaddedView.ApplyBounds | src/view/util_views.rs:284-308 | Background takes the bounds. The subview gets the padded lengths at origin `(padding_left, padding_top)`, whatever the bounds' origin, as the program computes it. A warning is counted when nothing was remembered. |
| UtilViews.PaddedView.PrepareForDrawing | src/view/util_views.rs:310-323 | Prepares a visible background only. Its parameters and size are kept. |
| UtilViews.PaddedView.Draw | src/view/util_views.rs:325-330 | Draws a visible, ready background only. |
| UtilViews.RatioShares | src/view/util_views.rs:456-461 | The slack and its two shares on finite operands. |
| UtilViews.RatioAxisPlacement | src/view/util_views.rs:452-473 | Corrected: a subview that fits keeps its length and starts `ratio` of the slack in, leaving `1 - ratio` after it. |
| UtilViews.RatioAxisAsWrittenOverflow | src/view/util_views.rs:456-467 | As written, with room to spare, the subview ends `(2·ratio − 1)·slack` past the bounds' far edge. |
| UtilViews.RatioSubviewOverflows | src/view/util_views.rs:456-467 | As written, a narrower subview with `ratio_left` > ½ ends past the right edge. |
| UtilViews.RatioSubviewInside | src/view/util_views.rs:452-473 | Corrected: with ratios in [0, 1] the subview lies inside the bounds. |
| UtilViews.RatioExactFit | src/view/util_views.rs:452-473 | Corrected: laid out at exactly its subview's size, the subview gets the bounds themselves. |
| UtilViews.ComplementInvolutive | src/view/util_views.rs:411-419 | `1 - (1 - x) = x`, so `set_ratio_right` then `ratio_right` round-trips. |
| UtilViews.RatioPaddedView.constructor | src/view/util_views.rs:352-362 | Centred, no size of its own, nothing remembered, transparent background. |
| UtilViews.RatioPaddedView.Spread | src/view/util_views.rs:364-367 | Like `new`, but it asks for infinite room on both axes. |
| UtilViews.RatioPaddedView.SetSize | src/view/util_views.rs:381-389 | Stores the size override. |
| UtilViews.RatioPaddedView.SetRatioLeft | src/view/util_views.rs:391-399 | Stores the ratio. |
| UtilViews.RatioPaddedView.SetRatioTop | src/view/util_views.rs:401-409 | Stores the ratio. |
| UtilViews.RatioPaddedView.SetRatioRight | src/view/util_views.rs:411-419 | Stores the complement in `ratio_left`, so a finite value reads back. |
| UtilViews.RatioPaddedView.SetRatioBottom | src/view/util_views.rs:421-429 | Stores the complement in `ratio_top`, so a finite value reads back. |
| UtilViews.RatioPaddedView.SetBackgroundColor | src/view/util_views.rs:431-439 | Recolours the background, which then needs updating. |
| UtilViews.RatioPaddedView.PreferredSize | src/view/util_views.rs:446-450 | Remembers the subview size and asks for the override, or the subview size. |
| UtilViews.RatioPaddedView.ApplyBounds | src/view/util_views.rs:452-473 | Background takes the bounds. With a remembered size the subview gets the bounds the program computes: shifted by `ratio` × slack, but shortened only by `(1 - ratio)` × slack. Without one, a warning and nothing placed. |
| UtilViews.RatioPaddedView.PrepareForDrawing | src/view/util_views.rs:475-488 | Prepares a visible background only. Its parameters and size are kept. |
| UtilViews.RatioPaddedView.Draw | src/view/util_views.rs:490-495 | Draws a visible, ready background only. |
| TextLayout.FontFromMeta | src/element/text.rs:44-68 | Copies the range, glyphs per line and glyph size. The atlas-relative glyph size lies in [0, 1] when the glyph fits the atlas. |
| TextLayout.AtlasCell | src/element/text.rs:82-92 | A present glyph's cell: column below glyphs per line, and row × per-line + column = index in the present range. |
| TextLayout.AtlasCellInjective | src/element/text.rs:82-92 | Distinct present glyphs occupy distinct cells. |
| TextLayout.UvPositionForGlyph | src/element/text.rs:82-92 | None exactly for a glyph outside the present range. Otherwise the cell scaled by the atlas-relative glyph size. |
| TextLayout.UvPositionInjective | src/element/text.rs:82-92 | With a non-zero glyph size, two present glyphs share a position exactly when their bytes are equal. |
| TextLayout.UvBoundsForChar | src/element/text.rs:94-97 | None for an absent glyph. Otherwise the cell's position with the glyph's atlas size. |
| TextLayout.GlyphRelativeWidth | src/element/text.rs:99-102 | The width when the height is one: non-negative, times the height gives the width. |
| TextLayout.InstanceWalk | src/element/text.rs:374-391 | Every glyph the walk places is present in the font. |
| TextLayout.Instance | src/element/text.rs:386-389 | Position `(column × relative width, row)`, uv offset the glyph's atlas position. |
| TextLayout.Instances | src/element/text.rs:386-389 | One instance per placed glyph, in order. |
| TextLayout.WalkChar | src/element/text.rs:374-391 | One character of the loop is one step of the walk. |
| TextLayout.CreateInstances | src/element/text.rs:367-395 | The loop yields exactly the text's instances. |
| TextLayout.DrawnAppend | src/element/text.rs:374-391 | A character is drawn exactly when it is not `\n` or `\r` and has a glyph. |
| TextLayout.WalkPlacesDrawn | src/element/text.rs:374-394 | The instance count is the drawn-character count, in text order. |
| TextLayout.WalkRowCountsNewlines | src/element/text.rs:375-379 | The walk ends on the row numbered by the text's newlines. |
| TextLayout.LineCount | src/view/text.rs:76-96 | At least one line. |
| TextLayout.LongestRun | src/view/text.rs:77-96 | At least the run the text ends with. |
| TextLayout.LongestRunIsMaximum | src/view/text.rs:77-96 | `n_columns` is the longest run between line breaks: no run is longer, and one reaches it. |
| TextLayout.WalkColumnWithinRun | src/element/text.rs:374-391 | The glyph walk's column never passes the measured run. |
| TextLayout.WalkFitsGrid | src/element/text.rs:374-391 | Every placed glyph lies in the `n_columns` × `n_lines` grid `set_text` measures. |
| TextViews.TextSize | src/view/text.rs:108-113 | Columns × relative width × font size by lines × font size. |
| TextViews.CellInsideGrid | src/view/text.rs:108-113 | A grid cell scaled by the font size lies in the scaled grid. |
| TextViews.InstanceInsideGrid | src/view/text.rs:108-113 | A glyph placed in the grid has its quad inside the measured size. |
| TextViews.InstancesInsideTextSize | src/view/text.rs:108-113 | Every instance built for the text lies inside `size()`. |
| TextViews.MeasureChar | src/view/text.rs:80-96 | One character of the measuring loop keeps lines, columns and run equal to their definitions. |
| TextViews.TextView.Params | src/view/text.rs:146-148 | What the prepare pass uploads: origin, font size and both colours. |
| TextViews.TextView.constructor | src/view/text.rs:28-42 | Empty text on one line of no columns. Font size 12, white foreground, transparent background, flags clear. |
| TextViews.TextView.SetFontSize | src/view/text.rs:44-52 | Records the size and raises the flag. |
| TextViews.TextView.SetFgColor | src/view/text.rs:54-62 | Records the colour and raises the flag. |
| TextViews.TextView.SetBgColor | src/view/text.rs:64-72 | Records the colour and raises the flag. |
| TextViews.TextView.SetText | src/view/text.rs:74-98 | Stores the text, raises the text flag, and measures lines and longest run. |
| TextViews.TextView.PreferredSize | src/view/text.rs:122-124 | The measured size of the current text. |
| TextViews.TextView.SetBounds | src/view/text.rs:115-118 | Keeps only the origin and raises the flag. |
| TextViews.TextView.PrepareForDrawing | src/view/text.rs:130-157 | Afterwards the element exists with the text's instances, the projection set, parameters uploaded if flagged, and both flags clear. |
| TextViews.TextView.Draw | src/view/text.rs:159-163 | Draws exactly when the element has instances, i.e. when the text has a drawn character. |
| ImageViews.CreateImage | src/element/image.rs:222-230 | A new element samples the texture, with identity transforms. |
| ImageViews.ImageView.constructor | src/view/image.rs:20-29 | Default bounds, both flags clear, no texture, no element. |
| ImageViews.ImageView.SetSize | src/view/image.rs:31-39 | Stores the size; no flag is involved. |
| ImageViews.ImageView.SetTexture | src/view/image.rs:45-52 | Replaces the texture (`None` included) and raises the texture flag for good. |
| ImageViews.ImageView.ResizeToFit | src/view/image.rs:60-64 | With a texture the size becomes the texture's; otherwise unchanged. |
| ImageViews.ImageView.PreferredSize | src/view/image.rs:73-75 | The size it was given. |
| ImageViews.ImageView.ApplyBounds | src/view/image.rs:66-69 | Records the bounds and raises the bounds flag. |
| ImageViews.ImageView.PrepareForDrawing | src/view/image.rs:81-100 | With a texture, a new element on that texture. Projection always set; bounds written and flag cleared when flagged. With no texture the old element is kept. |
| ImageViews.ImageView.Draw | src/view/image.rs:102-106 | Draws the element if there is one. |
| ImageViews.ImageView.Frame | src/view/ui_context.rs:205-216 | Preferred size, bounds, prepare, draw: with a texture what is drawn is that texture, on that canvas, at those bounds. |

## Left out

- GPU plumbing is not modelled. This covers pipelines, bind groups, buffers, shaders and `RectRenderer::create`. A GPU element is a value recording the projection, parameters and instances it was given. `draw_*` calls become returned values.
- Floating-point rounding, signed zero and NaN payloads are not modelled. `u32`/`usize` overflow is not modelled either: counters are unbounded.
- `char as u8` is modelled as the code point's low byte. Font loading, JSON parsing and image decoding (`Font::load_from_resources`) are I/O. Only their arithmetic is modelled.
- Locks, atomics and their orderings are not modelled; each field is a plain field. `Weak::upgrade` is an `alive` flag.
- The `*_mut`, `with_*` and getter variants of the property macros are not modelled. The macros are taken to expand to a plain store after the preamble.
- Subview objects are not modelled. A subview is the size it reports, and the bounds handed to it are recorded. The nested prepare and draw calls of the wrapper views are not modelled.
- `log::warn!` calls become warning counters.
- The sRGB transfer functions and `Srgba`/`Srgb` conversions are not modelled.
- Buttons.ButtonRenderer.Update: the text-centring arithmetic (`src/button.rs:184-199`) is not modelled. The GPU side is given only the style and the bounding box.
- TextLayout: `glyphs_per_line` must be positive (the source divides by it and panics at zero). This is a precondition.
- TextViews.TextView.Draw requires a prior prepare pass, because the source unwraps the element.
- LayoutStacks.RealAlphaSum counts a non-finite alpha length as zero. The lemmas that use it require finite lengths.
- `axis_utils`, `RectSize::min`/`max` and `scaled_on_axis` are not part of this model. They are taken to act component-wise, reading the bounds' lengths along the axes.
- winit's `to_logical` is taken to divide by the scale factor. winit's own checks on the scale factor are not modelled.
- The `demo` example, the app handler, `abstract_views`, `view_lists` and `src/view/button.rs` are not part of this model.

## Findings

| source | as written | input that shows it | evidently intended | confidence | as-written member | corrected member |
|---|---|---|---|---|---|---|
| src/view/util_views.rs:295-297 | `PaddedView::apply_bounds` puts the subview at `(padding_left, padding_top)`, ignoring `bounds.origin` | bounds 50×50 at (100, 100), zero paddings: the subview is placed at (0, 0), outside the bounds | the origin is `bounds.origin + (padding_left, padding_top)` | high, not executed | UtilViews.PaddedSubviewEscapesBounds | UtilViews.PaddedSubviewInside |
| src/view/util_views.rs:456-467 | `RatioPaddedView::apply_bounds` moves the origin by `ratio_left × slack` but sets the width to `bounds.width − (1 − ratio_left) × slack`, so the far edge is off by `(2·ratio_left − 1)·slack` | width 100, subview 50, `ratio_left` 1: the subview spans 50 to 150 in bounds 0 to 100 | width `bounds.width − slack`: the subview keeps its length | high, not executed | UtilViews.RatioSubviewOverflows | UtilViews.RatioSubviewInside |
| src/mouse_event.rs:215-222 | the re-scan names slot 3 `Forward` and slot 4 `Back`, while `window_event` (lines 153-160) stores `Back` in slot 3 and `Forward` in slot 4 | pressing Back over a listener is reported as `ButtonDown(Forward)` | each slot is named after the button stored in it | high, not executed | MouseEvents.ButtonAtAsWrittenSwaps | MouseEvents.ButtonAtIndex |

The operations follow the program as written, including the three behaviours above. The corrected definitions and their proved properties sit beside them.

Other behaviour, also modelled as written:

- `set_cursor_position` returns the new position, although its comment says it returns the old one.
- `CursorLeft` clears the cursor before scanning, so listeners get no `HoveringFinish` when the cursor leaves the window.
- The image view's texture flag is never lowered.
- `set_texture(None)` keeps the old element.
- `Rgba::from_hex(0xFFFFFF)` has a zero red channel.
- With both edges `Spread`, the container gives both edges `ratio × remaining`.
