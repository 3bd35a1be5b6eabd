/** The box-zoom control: a two-state (OFF/ON) toggle whose transitions
    switch map dragging, the map's box-zoom hooks, two event subscriptions
    and a CSS marker class; plus the geometry of the drawn box. The map's
    side of each switch is a boolean field of the control's state. */
module BoxZoom {
  import opened Wrappers
  import opened Geo

  datatype Options = Options(aspectRatio: Option<real>, enableShiftDrag: bool, keepOn: bool)

  /** JavaScript truthiness of the `aspectRatio` option: set and non-zero. */
  predicate AspectSet(a: Option<real>) {
    a.Some? && a.value != 0.0
  }

  /** The control together with the parts of the map it switches. */
  datatype Control = Control(
    options: Options,
    active: bool,
    buttonMarked: bool,     // active class on the control's button
    containerMarked: bool,  // active class on the map container
    dragging: bool,         // map dragging enabled
    hooks: bool,            // map box-zoom hooks installed
    mouseDownSub: bool,     // `mousedown` -> handleMouseDown subscribed
    boxZoomEndSub: bool,    // `boxzoomend` -> setStateOff subscribed
    patched: bool)          // map box-zoom mouse handlers replaced

  /** `setStateOn`. */
  function SetStateOn(c: Control): (r: Control)
    ensures r.active && r.buttonMarked && r.containerMarked
    ensures !r.dragging && r.mouseDownSub
    ensures r.hooks == (!c.options.enableShiftDrag || c.hooks)
    ensures r.boxZoomEndSub == (!c.options.keepOn || c.boxZoomEndSub)
    ensures r.options == c.options && r.patched == c.patched
  {
    c.(buttonMarked := true,
       active := true,
       dragging := false,
       hooks := if !c.options.enableShiftDrag then true else c.hooks,
       mouseDownSub := true,
       boxZoomEndSub := if !c.options.keepOn then true else c.boxZoomEndSub,
       containerMarked := true)
  }

  /** `setStateOff`; it never drops the `boxzoomend` subscription. */
  function SetStateOff(c: Control): (r: Control)
    ensures !r.active && !r.buttonMarked && !r.containerMarked
    ensures r.dragging && !r.mouseDownSub
    ensures r.hooks == (c.options.enableShiftDrag && c.hooks)
    ensures r.boxZoomEndSub == c.boxZoomEndSub
    ensures r.options == c.options && r.patched == c.patched
  {
    c.(buttonMarked := false,
       active := false,
       mouseDownSub := false,
       dragging := true,
       hooks := if !c.options.enableShiftDrag then false else c.hooks,
       containerMarked := false)
  }

  /** `toggleState`: flips `active`. */
  function ToggleState(c: Control): (r: Control)
    ensures r.active == !c.active
    ensures r.dragging == c.active && r.mouseDownSub == !c.active
  {
    if c.active then SetStateOff(c) else SetStateOn(c)
  }

  /** `onAdd`: a fresh control switched OFF on a map whose dragging and
      box-zoom hooks start as given; the map's mouse handlers are patched
      exactly when an aspect ratio is set. */
  function OnAdd(options: Options, dragging: bool, hooks: bool): (r: Control)
    ensures !r.active && r.dragging && !r.mouseDownSub && !r.boxZoomEndSub
    ensures r.hooks == (options.enableShiftDrag && hooks)
    ensures r.patched == AspectSet(options.aspectRatio)
    ensures Consistent(r)
  {
    var initial := Control(options, false, false, false, dragging, hooks, false, false, false);
    SetStateOff(initial).(patched := AspectSet(options.aspectRatio))
  }

  /** `onRemove`: only the patched handlers are restored. */
  function OnRemove(c: Control): (r: Control)
    ensures !r.patched
    ensures r.(patched := c.patched) == c
  {
    c.(patched := false)
  }

  /** A `boxzoomend` event on the map, as seen by the control. */
  function OnBoxZoomEnd(c: Control): (r: Control)
    ensures c.boxZoomEndSub ==> r == SetStateOff(c)
    ensures !c.boxZoomEndSub ==> r == c
  {
    if c.boxZoomEndSub then SetStateOff(c) else c
  }

  /** The relations every reachable state keeps between the control's
      flags and the map it controls. */
  ghost predicate Consistent(c: Control) {
    && c.buttonMarked == c.active
    && c.containerMarked == c.active
    && c.dragging == !c.active
    && c.mouseDownSub == c.active
    && (!c.options.enableShiftDrag ==> c.hooks == c.active)
    && (c.options.keepOn ==> !c.boxZoomEndSub)
    && (c.active && !c.options.keepOn ==> c.boxZoomEndSub)
    && c.patched == AspectSet(c.options.aspectRatio)
  }

  /** Switching OFF twice is switching OFF once. */
  lemma SetStateOffIdempotent(c: Control)
    ensures SetStateOff(SetStateOff(c)) == SetStateOff(c)
  {
  }

  /** Switching ON twice is switching ON once. */
  lemma SetStateOnIdempotent(c: Control)
    ensures SetStateOn(SetStateOn(c)) == SetStateOn(c)
  {
  }

  /** The subscription left behind by `setStateOff` is harmless: once the
      control is OFF, a further `boxzoomend` changes nothing. */
  lemma BoxZoomEndWhileOffIsNoop(c: Control)
    requires Consistent(c) && !c.active
    ensures OnBoxZoomEnd(c) == c
  {
  }

  /** A completed zoom switches an ON control OFF exactly when `keepOn` is unset. */
  lemma AutoOff(c: Control)
    requires Consistent(c) && c.active
    ensures OnBoxZoomEnd(c).active == c.options.keepOn
  {
  }

  /** Turning ON then OFF from the initial state returns to it, except that
      the `boxzoomend` subscription is left in place unless `keepOn` is set. */
  lemma ToggleTwiceFromStart(options: Options, dragging: bool, hooks: bool)
    ensures var c := OnAdd(options, dragging, hooks);
            ToggleState(ToggleState(c)) == c.(boxZoomEndSub := !options.keepOn)
  {
  }

  datatype Event = Click | BoxZoomEnd | Remove

  /** Applies one user or map event to the control. */
  function Step(c: Control, e: Event): Control {
    match e
    case Click => ToggleState(c)
    case BoxZoomEnd => OnBoxZoomEnd(c)
    case Remove => OnRemove(c)
  }

  /** Applies a sequence of events in order. */
  function Run(c: Control, events: seq<Event>): Control
    decreases |events|
  {
    if events == [] then c else Run(Step(c, events[0]), events[1..])
  }

  /** Clicks and completed zooms preserve `Consistent`. */
  lemma StepPreservesConsistent(c: Control, e: Event)
    requires Consistent(c) && e != Remove
    ensures Consistent(Step(c, e))
  {
  }

  /** Every state reached from `onAdd` by clicks and completed zooms keeps
      the control's flags and the map in step. */
  lemma {:induction false} RunPreservesConsistent(c: Control, events: seq<Event>)
    requires Consistent(c)
    requires forall i :: 0 <= i < |events| ==> events[i] != Remove
    ensures Consistent(Run(c, events))
    decreases |events|
  {
    if events != [] {
      StepPreservesConsistent(c, events[0]);
      RunPreservesConsistent(Step(c, events[0]), events[1..]);
    }
  }

  /** Once subscribed, the `boxzoomend` handler stays subscribed whatever
      happens next. */
  lemma {:induction false} BoxZoomEndSubscriptionPersists(c: Control, events: seq<Event>)
    requires c.boxZoomEndSub
    ensures Run(c, events).boxZoomEndSub
    decreases |events|
  {
    if events != [] {
      BoxZoomEndSubscriptionPersists(Step(c, events[0]), events[1..]);
    }
  }

  // ---- Box geometry of the patched mouse handlers ----

  /** A point in the map's layer pixel space. */
  datatype Pixel = Pixel(x: real, y: real)

  /** The drawn box: its top-left position and its CSS size. */
  datatype Box = Box(pos: Pixel, width: real, height: real)

  function Abs(r: real): real {
    if r < 0.0 then -r else r
  }

  function Min(a: real, b: real): real {
    if a <= b then a else b
  }

  /** The drag extent along one axis less four pixels, never below zero. */
  function Shrink(d: real): (r: real)
    ensures 0.0 <= r <= Abs(d)
    ensures Abs(d) <= 4.0 ==> r == 0.0
    ensures Abs(d) >= 4.0 ==> r + 4.0 == Abs(d)
  {
    if Abs(d) - 4.0 < 0.0 then 0.0 else Abs(d) - 4.0
  }

  /** The patched mouse-move handler: the box spans from the drag's start
      to the pointer, four pixels smaller; with an aspect ratio set its
      height is the width divided by the ratio. */
  function DrawBox(start: Pixel, pointer: Pixel, aspectRatio: Option<real>): (b: Box)
    ensures b.pos == Pixel(Min(pointer.x, start.x), Min(pointer.y, start.y))
    ensures b.width == Shrink(pointer.x - start.x)
    ensures AspectSet(aspectRatio) ==> b.height * aspectRatio.value == b.width
    ensures !AspectSet(aspectRatio) ==> b.height == Shrink(pointer.y - start.y)
    ensures aspectRatio.Some? && aspectRatio.value > 0.0 ==> b.height >= 0.0
  {
    var width := Shrink(pointer.x - start.x);
    var height := Shrink(pointer.y - start.y);
    Box(Pixel(Min(pointer.x, start.x), Min(pointer.y, start.y)), width,
        if AspectSet(aspectRatio) then width / aspectRatio.value else height)
  }

  /** A ratio of 2 and a 100-pixel-wide box give a 50-pixel-high box. */
  lemma AspectRatioExample(start: Pixel, pointer: Pixel)
    requires pointer.x - start.x == 104.0
    ensures DrawBox(start, pointer, Some(2.0)).width == 100.0
    ensures DrawBox(start, pointer, Some(2.0)).height == 50.0
  {
  }

  /** The bottom-right corner of a box as the browser measures it: the
      box's offset size is its CSS size plus a border of width `border` on
      each side (the border comes from the zoom box's stylesheet, which
      this file does not set). */
  function Corner(b: Box, border: real): Pixel {
    Pixel(b.pos.x + (b.width + 2.0 * border), b.pos.y + (b.height + 2.0 * border))
  }

  /** What the patched mouse-up handler does. On `Ignored` it returns
      before finishing the drag, so the drag is still in progress. */
  datatype Release = Ignored | Zoomed(nw: LatLng, se: LatLng)

  /** The patched mouse-up handler: converts the box's top-left corner and
      its measured bottom-right corner to map coordinates with `project`
      (the map's layer-point conversion) and returns early when `same`
      (the map's coordinate equality) holds of them; otherwise the drag
      finishes, the map fits those bounds and `boxzoomend` fires. */
  function MouseUp(b: Box, border: real, project: Pixel -> LatLng,
                   same: (LatLng, LatLng) -> bool): (r: Release)
    ensures r.Ignored? <==> same(project(b.pos), project(Corner(b, border)))
    ensures r.Zoomed? ==> r.nw == project(b.pos) && r.se == project(Corner(b, border))
  {
    var nw := project(b.pos);
    var se := project(Pixel(b.pos.x + (b.width + 2.0 * border), b.pos.y + (b.height + 2.0 * border)));
    if same(nw, se) then Ignored else Zoomed(nw, se)
  }

  /** `same` tells two converted pixels apart exactly when the pixels differ. */
  ghost predicate Separates(project: Pixel -> LatLng, same: (LatLng, LatLng) -> bool) {
    forall p, q :: same(project(p), project(q)) <==> p == q
  }

  /** When the conversion keeps distinct pixels apart under `same`, the
      release is ignored exactly when the measured box, border included,
      has no width and no height. */
  lemma IgnoredIffDegenerate(b: Box, border: real, project: Pixel -> LatLng,
                             same: (LatLng, LatLng) -> bool)
    requires Separates(project, same)
    ensures MouseUp(b, border, project, same).Ignored?
            <==> b.width + 2.0 * border == 0.0 && b.height + 2.0 * border == 0.0
  {
  }

  /** With an aspect ratio, a drag's release is ignored exactly when the
      box has no border and the drag moved at most four pixels
      horizontally. With any border the measured box is never empty, so
      every release completes the zoom. */
  lemma DragIgnoredIffNarrow(start: Pixel, pointer: Pixel, aspectRatio: Option<real>, border: real,
                             project: Pixel -> LatLng, same: (LatLng, LatLng) -> bool)
    requires AspectSet(aspectRatio) && Separates(project, same) && border >= 0.0
    ensures MouseUp(DrawBox(start, pointer, aspectRatio), border, project, same).Ignored?
            <==> border == 0.0 && Abs(pointer.x - start.x) <= 4.0
  {
  }

  /** A drag's effect on the control: it starts only when the control
      listens for `mousedown`. While the handlers are patched the patched
      release decides whether the zoom completes; otherwise (no aspect
      ratio, or the control was removed) Leaflet's own release rule
      decides, given here as `stockZoomed`. A completed zoom fires
      `boxzoomend`; an ignored release leaves the control as it was. */
  function Drag(c: Control, start: Pixel, pointer: Pixel, border: real, project: Pixel -> LatLng,
                same: (LatLng, LatLng) -> bool, stockZoomed: bool): (r: Control)
    ensures !c.mouseDownSub ==> r == c
    ensures c.mouseDownSub && c.patched ==>
              r == if MouseUp(DrawBox(start, pointer, c.options.aspectRatio), border, project, same).Zoomed?
                   then OnBoxZoomEnd(c) else c
    ensures c.mouseDownSub && !c.patched ==>
              r == if stockZoomed then OnBoxZoomEnd(c) else c
  {
    if !c.mouseDownSub then c
    else if !c.patched then
      (if stockZoomed then OnBoxZoomEnd(c) else c)
    else match MouseUp(DrawBox(start, pointer, c.options.aspectRatio), border, project, same)
      case Ignored => c
      case Zoomed(_, _) => OnBoxZoomEnd(c)
  }

  /** An ON control with an aspect ratio stays ON after a drag of at most
      four pixels when the box has no border. After a wider drag, or after
      any drag of a bordered box, it is OFF unless `keepOn` is set. */
  lemma DragOutcome(c: Control, start: Pixel, pointer: Pixel, border: real, project: Pixel -> LatLng,
                    same: (LatLng, LatLng) -> bool, stockZoomed: bool)
    requires Consistent(c) && c.active
    requires AspectSet(c.options.aspectRatio) && Separates(project, same) && border >= 0.0
    ensures border == 0.0 && Abs(pointer.x - start.x) <= 4.0 ==>
              Drag(c, start, pointer, border, project, same, stockZoomed) == c
    ensures border > 0.0 || Abs(pointer.x - start.x) > 4.0 ==>
              Drag(c, start, pointer, border, project, same, stockZoomed).active == c.options.keepOn
  {
    DragIgnoredIffNarrow(start, pointer, c.options.aspectRatio, border, project, same);
  }

  /** A control removed while ON still listens for `mousedown`, but its
      handlers are Leaflet's own again, so a drag Leaflet completes fires
      `boxzoomend` and switches it OFF, however narrow the drag. */
  lemma RemovedWhileOnUsesStockRule(start: Pixel, pointer: Pixel, border: real,
                                    project: Pixel -> LatLng, same: (LatLng, LatLng) -> bool)
    ensures var c := Run(OnAdd(Options(Some(2.0), false, false), true, true), [Click, Remove]);
            && c.active && c.mouseDownSub && !c.patched
            && !Drag(c, start, pointer, border, project, same, true).active
  {
  }
}
