/** The interactive state of the globe in components/LHWVisualization.tsx:
    the orientation, the drag flag and the selected hotel, with the idle
    tick, the drag update, the pan start/end flags, click-to-select and
    dismissal. The `rotation` state and `rotationRef` always hold the same
    value after every update, so one field stands for both. */
module GlobeView {
  import opened Optional
  import opened Hotels
  import opened SphereLayout
  import opened Projection
  import opened DepthSort

  /** Yaw added by one idle animation frame, in radians. */
  const AUTO_ROTATE_STEP: real := 0.002

  /** Radians of rotation per pixel of pointer movement. */
  const DRAG_SENSITIVITY: real := 0.005

  /** One animation frame: the yaw advances unless a drag is in progress or a
      hotel is selected; the pitch never changes. */
  function IdleTick(r: Rotation, isDragging: bool, activeHotel: Option<Hotel>): (r': Rotation)
    ensures r'.x == r.x
    ensures r' != r <==> !isDragging && activeHotel.None?
  {
    if !isDragging && activeHotel.None? then Rotation(r.x, r.y + AUTO_ROTATE_STEP) else r
  }

  /** `n` animation frames in a row with the flags unchanged: the pitch is
      kept and the yaw advances by at most n steps. */
  function Ticks(r: Rotation, isDragging: bool, activeHotel: Option<Hotel>, n: nat): (r': Rotation)
    ensures r'.x == r.x
    ensures r.y <= r'.y <= r.y + n as real * AUTO_ROTATE_STEP
  {
    if n == 0 then r else IdleTick(Ticks(r, isDragging, activeHotel, n - 1), isDragging, activeHotel)
  }

  /** A pan event with pointer delta (dx, dy): a vertical move tilts the
      pitch, a horizontal move turns the yaw the other way. */
  function Drag(r: Rotation, dx: real, dy: real): (r': Rotation)
    ensures r'.x == r.x <==> dy == 0.0
    ensures r'.y == r.y <==> dx == 0.0
    ensures dx > 0.0 ==> r'.y < r.y
  {
    Rotation(r.x + dy * DRAG_SENSITIVITY, r.y - dx * DRAG_SENSITIVITY)
  }

  /** The click handler of a rendered item: it selects the item's hotel only
      when the item's rotated depth is below the front threshold. */
  function ClickSelect(activeHotel: Option<Hotel>, p: Projected): (r: Option<Hotel>)
    ensures r == activeHotel || r == Some(p.hotel)
    ensures r != activeHotel ==> p.z < FRONT_THRESHOLD
    ensures activeHotel.Some? ==> r.Some?
  {
    if p.z < FRONT_THRESHOLD then Some(p.hotel) else activeHotel
  }

  /** An idle frame advances the yaw by exactly the step and keeps the pitch;
      any other frame leaves the orientation as it was. */
  lemma IdleTickEffect(r: Rotation, isDragging: bool, activeHotel: Option<Hotel>)
    ensures !isDragging && activeHotel.None? ==>
      IdleTick(r, isDragging, activeHotel) == Rotation(r.x, r.y + 0.002)
    ensures isDragging || activeHotel.Some? ==> IdleTick(r, isDragging, activeHotel) == r
  {
  }

  /** n idle frames advance the yaw by n steps, with no wrap-around. */
  lemma {:induction false} TicksIdle(r: Rotation, n: nat)
    ensures Ticks(r, false, None, n) == Rotation(r.x, r.y + n as real * AUTO_ROTATE_STEP)
  {
    if n > 0 {
      TicksIdle(r, n - 1);
    }
  }

  /** While dragging or while a hotel is selected, frames never move the globe. */
  lemma {:induction false} TicksPaused(r: Rotation, isDragging: bool, activeHotel: Option<Hotel>, n: nat)
    requires isDragging || activeHotel.Some?
    ensures Ticks(r, isDragging, activeHotel, n) == r
  {
    if n > 0 {
      TicksPaused(r, isDragging, activeHotel, n - 1);
    }
  }

  /** A drag of 100 pixels to the right turns the yaw back by exactly half a
      radian and leaves the pitch alone. */
  lemma DragHundredPixels(r: Rotation)
    ensures Drag(r, 100.0, 0.0) == Rotation(r.x, r.y - 0.5)
  {
  }

  /** Two pan events amount to one with the summed delta, and a delta
      followed by its negation returns to the start. */
  lemma DragComposes(r: Rotation, dx1: real, dy1: real, dx2: real, dy2: real)
    ensures Drag(Drag(r, dx1, dy1), dx2, dy2) == Drag(r, dx1 + dx2, dy1 + dy2)
    ensures Drag(Drag(r, dx1, dy1), -dx1, -dy1) == r
  {
  }

  /** A click selects exactly when the item is front-facing: a back item
      leaves the selection alone, a front item selects its own hotel. */
  lemma ClickGate(activeHotel: Option<Hotel>, item: Item, index: int, r: Rotation, m: MathLib)
    ensures var p := ProjectItem(item, index, r, m);
      && (!p.isFront ==> ClickSelect(activeHotel, p) == activeHotel)
      && (p.isFront ==> ClickSelect(activeHotel, p) == Some(item.hotel))
  {
  }

  /** Selecting a front item stops the idle rotation on the next frame;
      dismissing the selection restores it. */
  lemma SelectPausesDismissResumes(r: Rotation, p: Projected)
    requires p.z < FRONT_THRESHOLD
    ensures IdleTick(r, false, ClickSelect(None, p)) == r
    ensures IdleTick(r, false, None) == Rotation(r.x, r.y + AUTO_ROTATE_STEP)
  {
  }

  class Globe {
    /** The host's `Math`, opaque. */
    const math: MathLib
    /** The laid-out hotels, computed once. */
    const items: seq<Item>
    var rotation: Rotation
    var isDragging: bool
    var activeHotel: Option<Hotel>
    /** The timestamp of the last animation frame (`lastTimeRef`). */
    var lastTime: real

    /** The mounted component: HOTELS laid out, no rotation, no drag, no selection. */
    constructor (m: MathLib)
      ensures math == m && items == Layout(HOTELS, m)
      ensures rotation == Rotation(0.0, 0.0) && !isDragging && activeHotel == None && lastTime == 0.0
    {
      HotelsDoubled();
      math := m;
      items := Layout(HOTELS, m);
      rotation := Rotation(0.0, 0.0);
      isDragging := false;
      activeHotel := None;
      lastTime := 0.0;
    }

    /** The list rendered for the current orientation, farthest first. */
    function ProjectedItems(): (ps: seq<Projected>)
      reads this
      ensures |ps| == |items|
      ensures multiset(ps) == multiset(ProjectEach(items, rotation, math))
      ensures Ordered(ps)
    {
      GetProjectedItems(items, rotation, math)
    }

    /** `animate`: one frame. `lastTimeRef` always holds a number, so its
        `undefined` guard never blocks the update. */
    method Animate(time: real)
      modifies this`rotation, this`lastTime
      ensures rotation == IdleTick(old(rotation), isDragging, activeHotel)
      ensures lastTime == time
    {
      if !isDragging && activeHotel.None? {
        rotation := Rotation(rotation.x, rotation.y + AUTO_ROTATE_STEP);
      }
      lastTime := time;
    }

    /** `handleDrag`: applied whatever the selection. */
    method HandleDrag(dx: real, dy: real)
      modifies this`rotation
      ensures rotation == Drag(old(rotation), dx, dy)
    {
      rotation := Rotation(rotation.x + dy * DRAG_SENSITIVITY, rotation.y - dx * DRAG_SENSITIVITY);
    }

    /** `onPanStart`. */
    method PanStart()
      modifies this`isDragging
      ensures isDragging
    {
      isDragging := true;
    }

    /** `onPanEnd`. */
    method PanEnd()
      modifies this`isDragging
      ensures !isDragging
    {
      isDragging := false;
    }

    /** The click handler of the rendered item `p`. */
    method Click(p: Projected)
      modifies this`activeHotel
      ensures activeHotel == ClickSelect(old(activeHotel), p)
      ensures p.z >= FRONT_THRESHOLD ==> activeHotel == old(activeHotel)
    {
      if p.z < FRONT_THRESHOLD {
        activeHotel := Some(p.hotel);
      }
    }

    /** The close button and the backdrop of the detail overlay. */
    method Dismiss()
      modifies this`activeHotel
      ensures activeHotel == None
    {
      activeHotel := None;
    }
  }

  /** Selecting a front card and then dismissing it: no frame moves the globe
      while the card is open, and the next frame after dismissal turns it by
      one step again. */
  method SelectThenDismiss(g: Globe, p: Projected, time1: real, time2: real)
    requires !g.isDragging && g.activeHotel == None && p.z < FRONT_THRESHOLD
    modifies g
    ensures g.activeHotel == None
    ensures g.rotation == Rotation(old(g.rotation).x, old(g.rotation).y + AUTO_ROTATE_STEP)
  {
    g.Click(p);
    g.Animate(time1);
    assert g.rotation == old(g.rotation);
    g.Dismiss();
    g.Animate(time2);
  }
}
