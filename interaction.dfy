/**
 * The mouse interaction controller (mouse_cb): button events set or clear one of three held
 * flags; a pointer move orbits, pans or dollies the camera, chosen by an if/elif priority over
 * the flags; the wheel dollies; every event records the pointer position.
 */
module Interaction {
  import opened Geometry
  import opened ViewerState

  datatype Button = Left | Right | Middle

  /** The OpenCV mouse events the controller reacts to; `Other` is every remaining event code. */
  datatype Event = ButtonDown(button: Button) | ButtonUp(button: Button) | Move | Wheel | Other

  /** One call of the callback: the event, the pointer position and the event flags. */
  datatype Input = Input(event: Event, x: int, y: int, flags: int)

  /** The index of a button's flag in `mouseBtns`. */
  function Slot(b: Button): (i: nat)
    ensures i < 3
  {
    match b
    case Left => 0
    case Right => 1
    case Middle => 2
  }

  /** math.copysign(m, s) for a non-negative magnitude and an integer sign carrier (0 counts as +). */
  function CopySign(m: real, s: int): (r: real)
    requires 0.0 <= m
    ensures r == m || r == -m
    ensures 0.0 < m ==> (0 <= s <==> 0.0 < r)
  {
    if s < 0 then -m else m
  }

  /**
   * The dolly step of a middle-button drag: |(dx, dy)| / 100, forward when dragging up or level.
   * Where `lib.sqrt` is a true square root, the step's square is the squared drag length over
   * 10000 and the step is non-negative exactly when the drag does not go down the screen.
   */
  function DragDolly(lib: MathLib, dx: int, dy: int): (dz: real)
    ensures dy <= 0 ==> dz == lib.sqrt((dx * dx + dy * dy) as real) * 0.01
    ensures 0 < dy ==> dz == -(lib.sqrt((dx * dx + dy * dy) as real) * 0.01)
    ensures lib.SqrtAt((dx * dx + dy * dy) as real) ==>
              (0.0 <= dz <==> dy <= 0) && dz * dz == (dx * dx + dy * dy) as real / 10000.0
  {
    lib.sqrt((dx * dx + dy * dy) as real) * CopySign(0.01, -dy)
  }

  /** The dolly step of a wheel event: 0.1 with the sign of `flags`. */
  function WheelDolly(flags: int): (dz: real)
    ensures dz == 0.1 || dz == -0.1
    ensures 0.0 < dz <==> 0 <= flags
  {
    CopySign(0.1, flags)
  }

  /** Orbit: a horizontal drag across the whole screen turns the yaw by 2, a vertical one the pitch. */
  function Orbit(c: Camera, scr: Screen, dx: int, dy: int): (r: Camera)
    requires scr.Valid()
    ensures (r.yaw - c.yaw) * scr.width as real == 2.0 * dx as real
    ensures (c.pitch - r.pitch) * scr.height as real == 2.0 * dy as real
    ensures r == c.(yaw := r.yaw, pitch := r.pitch)
  {
    c.(yaw := c.yaw + dx as real / scr.width as real * 2.0,
       pitch := c.pitch - dy as real / scr.height as real * 2.0)
  }

  /** The drag as a fraction of the screen, the vector the pan moves against. */
  function PanOffset(scr: Screen, dx: int, dy: int): (d: Vec3)
    requires scr.Valid()
    ensures d.x * scr.width as real == dx as real && d.y * scr.height as real == dy as real && d.z == 0.0
  {
    Vec3(dx as real / scr.width as real, dy as real / scr.height as real, 0.0)
  }

  /** Pan: move the translation against the drag, rotated into the camera's frame. */
  function Pan(c: Camera, lib: MathLib, scr: Screen, dx: int, dy: int): (r: Camera)
    requires scr.Valid()
    ensures Add(r.translation, MatVec(c.Rotation(lib), PanOffset(scr, dx, dy))) == c.translation
    ensures r == c.(translation := r.translation)
  {
    c.(translation := Sub(c.translation, MatVec(c.Rotation(lib), PanOffset(scr, dx, dy))))
  }

  /** Dolly: move the camera by dz along z and shorten the distance to the pivot by the same. */
  function Dolly(c: Camera, dz: real): (r: Camera)
    ensures r.Pivot() == c.Pivot()
    ensures r.translation.z - c.translation.z == dz && c.distance - r.distance == dz
    ensures r.translation.x == c.translation.x && r.translation.y == c.translation.y
    ensures r == c.(translation := r.translation, distance := r.distance)
  {
    c.(translation := c.translation.(z := c.translation.z + dz), distance := c.distance - dz)
  }

  /** A pointer move by (dx, dy): the left flag orbits, else the right flag pans, else the middle flag dollies. */
  function MoveStep(c: Camera, lib: MathLib, scr: Screen, dx: int, dy: int): (r: Camera)
    requires c.Valid() && scr.Valid()
    ensures r == c.(pitch := r.pitch, yaw := r.yaw, translation := r.translation, distance := r.distance)
    ensures !c.mouseBtns[0] ==> r.pitch == c.pitch && r.yaw == c.yaw
    ensures !c.mouseBtns[0] && !c.mouseBtns[1] && !c.mouseBtns[2] ==> r == c
  {
    if c.mouseBtns[0] then Orbit(c, scr, dx, dy)
    else if c.mouseBtns[1] then Pan(c, lib, scr, dx, dy)
    else if c.mouseBtns[2] then Dolly(c, DragDolly(lib, dx, dy))
    else c
  }

  /** One call of mouse_cb on the camera value. */
  function MouseStep(c: Camera, lib: MathLib, scr: Screen, e: Input): (r: Camera)
    requires c.Valid() && scr.Valid()
    ensures r.Valid()
    ensures r.prevMouse == (e.x, e.y)
  {
    var next := match e.event
      case ButtonDown(b) => c.(mouseBtns := c.mouseBtns[Slot(b) := true])
      case ButtonUp(b) => c.(mouseBtns := c.mouseBtns[Slot(b) := false])
      case Move => MoveStep(c, lib, scr, e.x - c.prevMouse.0, e.y - c.prevMouse.1)
      case Wheel => Dolly(c, WheelDolly(e.flags))
      case Other => c;
    next.(prevMouse := (e.x, e.y))
  }

  /** A button event sets (down) or clears (up) exactly its own flag; nothing else but the position changes. */
  lemma ButtonEventTouchesOneFlag(c: Camera, lib: MathLib, scr: Screen, e: Input)
    requires c.Valid() && scr.Valid() && (e.event.ButtonDown? || e.event.ButtonUp?)
    ensures var r := MouseStep(c, lib, scr, e);
      && r.mouseBtns[Slot(e.event.button)] == e.event.ButtonDown?
      && (forall i :: 0 <= i < 3 && i != Slot(e.event.button) ==> r.mouseBtns[i] == c.mouseBtns[i])
      && r == c.(mouseBtns := r.mouseBtns, prevMouse := (e.x, e.y))
  {
  }

  /**
   * A move with the left flag held orbits by the drag and changes nothing else; the right and
   * middle flags play no part (the elif priority).
   */
  lemma OrbitMove(c: Camera, lib: MathLib, scr: Screen, e: Input)
    requires c.Valid() && scr.Valid() && e.event == Move && c.mouseBtns[0]
    ensures var r, dx, dy := MouseStep(c, lib, scr, e), e.x - c.prevMouse.0, e.y - c.prevMouse.1;
      && r.yaw == c.yaw + dx as real / scr.width as real * 2.0
      && r.pitch == c.pitch - dy as real / scr.height as real * 2.0
      && r == c.(yaw := r.yaw, pitch := r.pitch, prevMouse := (e.x, e.y))
  {
  }

  /** A move with the right flag (and not the left) held pans: angles and distance stay. */
  lemma PanMove(c: Camera, lib: MathLib, scr: Screen, e: Input)
    requires c.Valid() && scr.Valid() && e.event == Move && !c.mouseBtns[0] && c.mouseBtns[1]
    ensures var r, dx, dy := MouseStep(c, lib, scr, e), e.x - c.prevMouse.0, e.y - c.prevMouse.1;
      && Add(r.translation, MatVec(c.Rotation(lib), PanOffset(scr, dx, dy))) == c.translation
      && r == c.(translation := r.translation, prevMouse := (e.x, e.y))
  {
    var dx, dy := e.x - c.prevMouse.0, e.y - c.prevMouse.1;
    var d := MatVec(c.Rotation(lib), PanOffset(scr, dx, dy));
    assert Add(Sub(c.translation, d), d) == c.translation;
  }

  /**
   * A middle drag (left and right flags up) and a wheel event both dolly: the translation's z
   * gains what the distance loses, so the pivot stays put; angles and the x and y of the
   * translation are untouched.
   */
  lemma DollyEvent(c: Camera, lib: MathLib, scr: Screen, e: Input)
    requires c.Valid() && scr.Valid()
    requires e.event == Wheel || (e.event == Move && !c.mouseBtns[0] && !c.mouseBtns[1] && c.mouseBtns[2])
    ensures var r := MouseStep(c, lib, scr, e);
      && r.Pivot() == c.Pivot()
      && r.translation.z + r.distance == c.translation.z + c.distance
      && r == c.(translation := r.translation, distance := r.distance, prevMouse := (e.x, e.y))
      && r.translation.x == c.translation.x && r.translation.y == c.translation.y
      && (e.event == Wheel ==> r.translation.z - c.translation.z == WheelDolly(e.flags))
      && (e.event == Move ==> r.translation.z - c.translation.z == DragDolly(lib, e.x - c.prevMouse.0, e.y - c.prevMouse.1))
  {
    var dz := if e.event == Wheel then WheelDolly(e.flags)
              else DragDolly(lib, e.x - c.prevMouse.0, e.y - c.prevMouse.1);
    var d := Dolly(c, dz);
    assert MouseStep(c, lib, scr, e) == d.(prevMouse := (e.x, e.y));
  }

  /** The wheel moves the camera by exactly 0.1: forward for a non-negative `flags`, back otherwise. */
  lemma WheelStep(c: Camera, lib: MathLib, scr: Screen, e: Input)
    requires c.Valid() && scr.Valid() && e.event == Wheel
    ensures var r := MouseStep(c, lib, scr, e);
      r.translation.z - c.translation.z == (if 0 <= e.flags then 0.1 else -0.1)
  {
    DollyEvent(c, lib, scr, e);
  }

  /** A move with no flag held only records the pointer position. */
  lemma IdleMove(c: Camera, lib: MathLib, scr: Screen, e: Input)
    requires c.Valid() && scr.Valid() && e.event == Move
    requires !c.mouseBtns[0] && !c.mouseBtns[1] && !c.mouseBtns[2]
    ensures MouseStep(c, lib, scr, e) == c.(prevMouse := (e.x, e.y))
  {
  }

  /** Only a move with the left flag held changes the orbit angles. */
  lemma AnglesChangeOnlyOnOrbit(c: Camera, lib: MathLib, scr: Screen, e: Input)
    requires c.Valid() && scr.Valid()
    ensures var r := MouseStep(c, lib, scr, e);
      (r.pitch != c.pitch || r.yaw != c.yaw) ==> e.event == Move && c.mouseBtns[0]
  {
    if e.event == Wheel || (e.event == Move && !c.mouseBtns[0] && !c.mouseBtns[1] && c.mouseBtns[2]) {
      DollyEvent(c, lib, scr, e);
    } else if e.event == Move && !c.mouseBtns[0] && c.mouseBtns[1] {
      PanMove(c, lib, scr, e);
    }
  }

  /** The camera after a sequence of callbacks, in order. */
  function Replay(c: Camera, lib: MathLib, scr: Screen, es: seq<Input>): (r: Camera)
    requires c.Valid() && scr.Valid()
    ensures r.Valid()
    ensures es != [] ==> r.prevMouse == (es[|es| - 1].x, es[|es| - 1].y)
    decreases |es|
  {
    if es == [] then c
    else Replay(MouseStep(c, lib, scr, es[0]), lib, scr, es[1..])
  }

  /**
   * Without the left button ever going down, a session that starts with it up never changes
   * the orbit angles.
   */
  lemma {:induction false} NoLeftPressKeepsAngles(c: Camera, lib: MathLib, scr: Screen, es: seq<Input>)
    requires c.Valid() && scr.Valid() && !c.mouseBtns[0]
    requires forall k :: 0 <= k < |es| ==> es[k].event != ButtonDown(Left)
    ensures var r := Replay(c, lib, scr, es); r.pitch == c.pitch && r.yaw == c.yaw && !r.mouseBtns[0]
    decreases |es|
  {
    if es != [] {
      var c1 := MouseStep(c, lib, scr, es[0]);
      AnglesChangeOnlyOnOrbit(c, lib, scr, es[0]);
      assert !c1.mouseBtns[0] by {
        match es[0].event
        case ButtonDown(b) => assert b != Left;
        case ButtonUp(b) =>
        case Move =>
        case Wheel => DollyEvent(c, lib, scr, es[0]);
        case Other =>
      }
      NoLeftPressKeepsAngles(c1, lib, scr, es[1..]);
    }
  }

  /** Any run of wheel events keeps the pivot and the orbit angles. */
  lemma {:induction false} WheelsKeepPivot(c: Camera, lib: MathLib, scr: Screen, es: seq<Input>)
    requires c.Valid() && scr.Valid()
    requires forall k :: 0 <= k < |es| ==> es[k].event == Wheel
    ensures var r := Replay(c, lib, scr, es); r.Pivot() == c.Pivot() && r.pitch == c.pitch && r.yaw == c.yaw
    decreases |es|
  {
    if es != [] {
      DollyEvent(c, lib, scr, es[0]);
      WheelsKeepPivot(MouseStep(c, lib, scr, es[0]), lib, scr, es[1..]);
    }
  }

  /** mouse_cb on the state object: the same if-chain, updating the fields in place. */
  method MouseCallback(s: State, lib: MathLib, scr: Screen, e: Input)
    requires s.Valid() && scr.Valid()
    modifies s
    ensures s.Valid() && s.Value() == MouseStep(old(s.Value()), lib, scr, e)
  {
    match e.event {
      case ButtonDown(b) =>
        Press(s, b, true);
      case ButtonUp(b) =>
        Press(s, b, false);
      case Move =>
        Drag(s, lib, scr, e.x - s.prevMouse.0, e.y - s.prevMouse.1);
      case Wheel =>
        DollyBy(s, WheelDolly(e.flags));
      case Other =>
    }
    s.prevMouse := (e.x, e.y);
  }

  /** A button event: set (down) or clear (up) the button's own flag. */
  method Press(s: State, b: Button, down: bool)
    requires s.Valid()
    modifies s
    ensures s.Valid() && s.Value() == old(s.Value()).(mouseBtns := old(s.mouseBtns)[Slot(b) := down])
  {
    s.mouseBtns := s.mouseBtns[Slot(b) := down];
  }

  /** The mouse-move branch of mouse_cb: orbit, else pan, else dolly, by which flag is held first. */
  method Drag(s: State, lib: MathLib, scr: Screen, dx: int, dy: int)
    requires s.Valid() && scr.Valid()
    modifies s
    ensures s.Valid() && s.Value() == MoveStep(old(s.Value()), lib, scr, dx, dy)
  {
    if s.mouseBtns[0] {
      s.yaw := s.yaw + dx as real / scr.width as real * 2.0;
      s.pitch := s.pitch - dy as real / scr.height as real * 2.0;
    } else if s.mouseBtns[1] {
      s.translation := Sub(s.translation, MatVec(s.Value().Rotation(lib), PanOffset(scr, dx, dy)));
    } else if s.mouseBtns[2] {
      DollyBy(s, DragDolly(lib, dx, dy));
    }
  }

  /** The dolly both the middle drag and the wheel perform: translation.z += dz, distance -= dz. */
  method DollyBy(s: State, dz: real)
    requires s.Valid()
    modifies s
    ensures s.Valid() && s.Value() == Dolly(old(s.Value()), dz)
  {
    s.translation := s.translation.(z := s.translation.z + dz);
    s.distance := s.distance - dz;
  }
}
