/**
 * The viewer's camera: orbit angles, pan/zoom offset and pointer state, with the derived
 * rotation and pivot, the session defaults and the reset. `Camera` is the state as a value;
 * `State` is the object whose fields the interaction controller updates in place
 * (`__State__`, or the camera fields of `FrameProcessor` in the second variant), and
 * `FrameProcessor` holds the 2D/3D mode flag.
 */
module ViewerState {
  import opened Optional
  import opened Geometry

  /**
   * The library routines the camera calls but the model does not define:
   * the cosine and sine inside cv2.Rodrigues, and math.sqrt.
   */
  datatype MathLib = MathLib(cos: real -> real, sin: real -> real, sqrt: real -> real)
  {
    /** cos^2 a + sin^2 a = 1. */
    predicate PythagoreanAt(a: real) { cos(a) * cos(a) + sin(a) * sin(a) == 1.0 }

    /** cos 0 = 1 and sin 0 = 0. */
    predicate ExactAtZero() { cos(0.0) == 1.0 && sin(0.0) == 0.0 }

    /** sqrt(x) is the non-negative root of x. */
    predicate SqrtAt(x: real) { 0.0 <= sqrt(x) && sqrt(x) * sqrt(x) == x }
  }

  /** math.pi as a Python float prints it. */
  const Pi: real := 3.141592653589793

  /** math.radians. */
  function Radians(deg: real): real { deg * (Pi / 180.0) }

  /** cv2.Rodrigues((a, 0, 0)): rotation by a about the x axis. */
  function RotX(lib: MathLib, a: real): Mat3 {
    Mat3(Vec3(1.0, 0.0, 0.0), Vec3(0.0, lib.cos(a), -lib.sin(a)), Vec3(0.0, lib.sin(a), lib.cos(a)))
  }

  /** cv2.Rodrigues((0, a, 0)): rotation by a about the y axis. */
  function RotY(lib: MathLib, a: real): Mat3 {
    Mat3(Vec3(lib.cos(a), 0.0, lib.sin(a)), Vec3(0.0, 1.0, 0.0), Vec3(-lib.sin(a), 0.0, lib.cos(a)))
  }

  /**
   * The camera state. `mouseBtns` holds the held flags of the left, right and middle
   * buttons at indices 0, 1 and 2; `prevMouse` is the last pointer position.
   */
  datatype Camera = Camera(pitch: real, yaw: real, translation: Vec3, distance: real,
                           prevMouse: (int, int), mouseBtns: seq<bool>,
                           paused: bool, decimate: nat, scale: bool, color: bool)
  {
    predicate Valid() { |mouseBtns| == 3 }

    /** reset(): level orientation, distance 2, translation (0, 0, -1); nothing else changes. */
    function Reset(): (r: Camera)
      ensures r.pitch == 0.0 && r.yaw == 0.0
      ensures r.Pivot() == Vec3(0.0, 0.0, 1.0) && r.distance == 2.0
      ensures r == this.(pitch := r.pitch, yaw := r.yaw, distance := r.distance, translation := r.translation)
    {
      this.(pitch := 0.0, yaw := 0.0, distance := 2.0, translation := Vec3(0.0, 0.0, -1.0))
    }

    /** The orbit pivot: `distance` ahead of the translation along z. */
    function Pivot(): (p: Vec3)
      ensures Sub(p, translation) == Vec3(0.0, 0.0, distance)
    {
      Add(translation, Vec3(0.0, 0.0, distance))
    }

    /** The rotation property: Ry(yaw) * Rx(pitch). */
    function Rotation(lib: MathLib): Mat3 {
      MatMul(RotY(lib, yaw), RotX(lib, pitch))
    }

    /** view(v): rotate v about the pivot, then move it by minus the translation. */
    function View(lib: MathLib, v: Vec3): Vec3 {
      Sub(Add(VecMat(Sub(v, Pivot()), Rotation(lib)), Pivot()), translation)
    }
  }

  /** The session defaults set by the constructor. */
  function Initial(): (c: Camera)
    ensures c.Valid() && forall i :: 0 <= i < 3 ==> !c.mouseBtns[i]
    ensures c.prevMouse == (0, 0)
    ensures c.pitch < 0.0 && c.yaw < c.pitch
  {
    Camera(Radians(-10.0), Radians(-15.0), Vec3(0.0, 0.0, -1.0), 2.0, (0, 0),
           [false, false, false], false, 1, true, true)
  }

  /** The session starts orbiting about the point one unit ahead of the origin. */
  lemma InitialPivot()
    ensures Initial().Pivot() == Vec3(0.0, 0.0, 1.0)
  {
  }

  /** The session starts at the reset position and distance: reset only levels its angles. */
  lemma ResetFromStart()
    ensures Initial().Reset() == Initial().(pitch := 0.0, yaw := 0.0)
  {
  }

  /** The rows of Ry(yaw) * Rx(pitch), written out. */
  lemma RotationEntries(c: Camera, lib: MathLib)
    ensures var cp, sp, cy, sy := lib.cos(c.pitch), lib.sin(c.pitch), lib.cos(c.yaw), lib.sin(c.yaw);
      c.Rotation(lib) == Mat3(Vec3(cy, sy * sp, sy * cp), Vec3(0.0, cp, -sp), Vec3(-sy, cy * sp, cy * cp))
  {
  }

  /** The identities behind RotationIsOrthonormal, on the sines and cosines of pitch and yaw. */
  lemma RotationRows(cp: real, sp: real, cy: real, sy: real)
    requires cp * cp + sp * sp == 1.0 && cy * cy + sy * sy == 1.0
    ensures var r0, r1, r2 := Vec3(cy, sy * sp, sy * cp), Vec3(0.0, cp, -sp), Vec3(-sy, cy * sp, cy * cp);
      Orthonormal(Mat3(r0, r1, r2))
  {
    assert (sy * sp) * (sy * sp) + (sy * cp) * (sy * cp) == sy * sy * (sp * sp + cp * cp);
    assert (cy * sp) * (cy * sp) + (cy * cp) * (cy * cp) == cy * cy * (sp * sp + cp * cp);
    assert (sy * sp) * (cy * sp) + (sy * cp) * (cy * cp) == sy * cy * (sp * sp + cp * cp);
  }

  /** The rotation is orthonormal whenever the library's sine and cosine are consistent. */
  lemma RotationIsOrthonormal(c: Camera, lib: MathLib)
    requires lib.PythagoreanAt(c.pitch) && lib.PythagoreanAt(c.yaw)
    ensures Orthonormal(c.Rotation(lib))
  {
    RotationEntries(c, lib);
    RotationRows(lib.cos(c.pitch), lib.sin(c.pitch), lib.cos(c.yaw), lib.sin(c.yaw));
  }

  /** With both angles zero and an exact library, the rotation is the identity. */
  lemma LevelRotationIsIdentity(c: Camera, lib: MathLib)
    requires c.pitch == 0.0 && c.yaw == 0.0 && lib.ExactAtZero()
    ensures c.Rotation(lib) == Identity
  {
    assert RotX(lib, c.pitch) == Identity;
    assert RotY(lib, c.yaw) == Identity;
    MatMulIdentity();
  }

  /** The pivot is a fixed point of the orbit: it always lands `distance` straight ahead. */
  lemma ViewFixesPivot(c: Camera, lib: MathLib)
    ensures c.View(lib, c.Pivot()) == Vec3(0.0, 0.0, c.distance)
  {
    assert Sub(c.Pivot(), c.Pivot()) == Zero;
    VecMatZero(c.Rotation(lib));
  }

  /** view is rigid about the pivot: it keeps every point's distance to the pivot. */
  lemma ViewKeepsDistanceToPivot(c: Camera, lib: MathLib, v: Vec3)
    requires lib.PythagoreanAt(c.pitch) && lib.PythagoreanAt(c.yaw)
    ensures NormSq(Sub(c.View(lib, v), c.View(lib, c.Pivot()))) == NormSq(Sub(v, c.Pivot()))
  {
    RotationIsOrthonormal(c, lib);
    VecMatKeepsNorm(Sub(v, c.Pivot()), c.Rotation(lib));
    ViewFixesPivot(c, lib);
  }

  /** With the identity rotation, view only subtracts the translation. */
  lemma ViewWithoutRotation(c: Camera, lib: MathLib, v: Vec3)
    requires c.Rotation(lib) == Identity
    ensures c.View(lib, v) == Sub(v, c.translation)
  {
    TurnByIdentity(v, c.Pivot(), c.translation, c.Rotation(lib));
  }

  /** With both angles zero and an exact library, view only subtracts the translation. */
  lemma LevelView(c: Camera, lib: MathLib, v: Vec3)
    requires c.pitch == 0.0 && c.yaw == 0.0 && lib.ExactAtZero()
    ensures c.View(lib, v) == Sub(v, c.translation)
  {
    LevelRotationIsIdentity(c, lib);
    ViewWithoutRotation(c, lib, v);
  }

  lemma MinusBehind(v: Vec3)
    ensures Sub(v, Vec3(0.0, 0.0, -1.0)) == Vec3(v.x, v.y, v.z + 1.0)
  {
  }

  /** After reset the camera looks straight ahead from one unit behind the origin. */
  lemma ResetView(c: Camera, lib: MathLib, v: Vec3)
    requires lib.ExactAtZero()
    ensures c.Reset().View(lib, v) == Vec3(v.x, v.y, v.z + 1.0)
  {
    LevelView(c.Reset(), lib, v);
    MinusBehind(v);
  }

  /** The camera state object; its fields are the ones the source updates in place. */
  class State {
    var pitch: real
    var yaw: real
    var translation: Vec3
    var distance: real
    var prevMouse: (int, int)
    var mouseBtns: seq<bool>
    var paused: bool
    var decimate: nat
    var scale: bool
    var color: bool

    ghost predicate Valid()
      reads this
    {
      |mouseBtns| == 3
    }

    /** The state as a value. */
    function Value(): (c: Camera)
      reads this
      ensures Valid() ==> c.Valid()
    {
      Camera(pitch, yaw, translation, distance, prevMouse, mouseBtns, paused, decimate, scale, color)
    }

    constructor ()
      ensures Valid() && Value() == Initial()
    {
      pitch, yaw := Radians(-10.0), Radians(-15.0);
      translation := Vec3(0.0, 0.0, -1.0);
      distance := 2.0;
      prevMouse := (0, 0);
      mouseBtns := [false, false, false];
      paused := false;
      decimate := 1;
      scale := true;
      color := true;
    }

    method Reset()
      requires Valid()
      modifies this
      ensures Valid() && Value() == old(Value()).Reset()
    {
      pitch, yaw, distance := 0.0, 0.0, 2.0;
      translation := Vec3(0.0, 0.0, -1.0);
      assert Value() == old(Value()).(pitch := 0.0, yaw := 0.0, distance := 2.0, translation := translation);
    }
  }

  /** The processor's display mode: two 2D images, or one combined 3D view. */
  class FrameProcessor {
    var image2D: bool
    const state: State

    constructor ()
      ensures fresh(state) && state.Valid() && state.Value() == Initial()
      ensures Is2DMode()
    {
      image2D := true;
      state := new State();
    }

    function Is2DMode(): bool
      reads this
    {
      image2D
    }

    /** The two modes are complementary. */
    function Is3DMode(): (b: bool)
      reads this
      ensures b != Is2DMode()
    {
      !image2D
    }

    /** changeMode: an explicit 2D choice wins; otherwise the mode is the opposite of `image3D`. */
    method ChangeMode(image2D: Option<bool>, image3D: bool)
      modifies this
      ensures image2D.Some? ==> Is2DMode() == image2D.value
      ensures image2D.None? ==> Is3DMode() == image3D
    {
      if image2D.Some? {
        this.image2D := image2D.value;
      } else {
        this.image2D := !image3D;
      }
    }
  }
}
