/** The camera-state controller of the 3D map: where the camera looks, which
    way it faces, whether it projects in perspective, and the two slews that
    carry position and direction to a new value over time. */
module Camera {
  import opened Geometry
  import opened Slew
  import opened Keyboard

  /** The distance check of StartCameraSlew squares the X and Z differences
      but multiplies the Y difference by (-c.y - p.y) instead of by itself. */
  function SlewRadicand(c: Vec3, p: Vec3): real {
    (c.x - p.x) * (c.x - p.x) + (c.y - p.y) * (-c.y - p.y) + (c.z - p.z) * (c.z - p.z)
  }

  /** The radicand is the true squared distance off by 2 * c.y * (c.y - p.y). */
  lemma RadicandMisreadsY(c: Vec3, p: Vec3)
    ensures SlewRadicand(c, p) == LengthSquared(Sub(c, p)) - 2.0 * c.y * (c.y - p.y)
  {
  }

  /** The distance check measures the true distance exactly when the camera's
      internal Y is 0 or already equals the requested internal Y. */
  lemma RadicandExactIff(c: Vec3, p: Vec3)
    ensures SlewRadicand(c, p) == LengthSquared(Sub(c, p)) <==> c.y == 0.0 || c.y == p.y
  {
    RadicandMisreadsY(c, p);
    ProductZero(c.y, c.y - p.y);
  }

  /** A camera whose internal Y is 5 asked to slew to the origin (the same
      point in both frames) sees a radicand of -25, so the request is
      ignored although the origin is 5 units away. */
  lemma RadicandRejectsDistantTarget()
    ensures SlewRadicand(Vec3(0.0, 5.0, 0.0), Vec3(0.0, 0.0, 0.0)) == -25.0
  {
  }

  /** Whether StartCameraSlew acts on a request: X is a number and the
      radicand of the distance check is at least 1 (a negative radicand has a
      NaN root, and NaN >= 1 is false). */
  predicate SlewAccepted(viewTarget: Vec3, normpos: VecArg) {
    normpos.Vec? && SlewRadicand(viewTarget, FlipY(normpos.v)) >= 1.0
  }

  /** The duration of a position slew: a positive request as given, a
      negative one estimated at 10000 units per second and never under 2
      seconds; `sqrt` stands for the square root. */
  function SlewDuration(timeslewsec: real, radicand: real, sqrt: real -> real): (t: real)
    requires timeslewsec != 0.0
    ensures timeslewsec > 0.0 ==> t == timeslewsec
    ensures timeslewsec < 0.0 ==> t >= 2.0 && t >= sqrt(radicand) / 10000.0
    ensures timeslewsec < 0.0 ==> t == 2.0 || t == sqrt(radicand) / 10000.0
  {
    if timeslewsec < 0.0 then Max(2.0, sqrt(radicand) / 10000.0) else timeslewsec
  }

  /** A slew to the real-world position v, started from rest with a positive
      duration, ends with the camera's real-world position EXACTLY at v once
      the frame ticks add up to the duration, whatever their sizes. */
  lemma StartedSlewArrives(v: Vec3, time: real, cur: Vec3, ticks: seq<int>, ease: real -> real)
    requires time > 0.0 && IsEasing(ease) && NonNegative(ticks)
    requires Sum(ticks) as real >= time * 1000.0
    ensures FlipY(Run(Timer(0.0, time, FlipY(v)), cur, ticks, ease).1) == v
    ensures Idle(Run(Timer(0.0, time, FlipY(v)), cur, ticks, ease).0)
  {
    var t := Timer(0.0, time, FlipY(v));
    assert (1.0 - t.progress) * (t.time * 1000.0) == time * 1000.0;
    RunReachesGoal(t, cur, ticks, ease);
    FlipYInvolution(v);
  }

  /** The direction AzEl gives from curpos to target: (180, 0, 0), forward
      and level, when the target is within 0.1 of curpos; otherwise the
      inclination and the azimuth, the latter turned so that 0 is at the
      bottom and 180 north. `polar(delta)` stands for the trigonometry: the
      inclination acos(delta.y / |delta|) and atan(delta.z / delta.x), both
      in degrees. */
  function AzEl(curpos: Vec3, target: Vec3, polar: Vec3 -> (real, real)): (r: Vec3)
    ensures r.z == 0.0
    ensures LengthSquared(Sub(target, curpos)) < 0.01 ==> r == Vec3(180.0, 0.0, 0.0)
    ensures var delta := Sub(target, curpos);
      LengthSquared(delta) >= 0.01 && -90.0 <= polar(delta).1 <= 90.0 ==>
        if delta.x < 0.0 then 180.0 <= r.y <= 360.0 else 0.0 <= r.y <= 180.0
  {
    var delta := Sub(target, curpos);
    if LengthSquared(delta) < 0.01 then Vec3(180.0, 0.0, 0.0)
    else
      var inclination := polar(delta).0;
      var azimuth := polar(delta).1;
      var azimuth := if delta.x < 0.0 then azimuth + 180.0 else azimuth;
      Vec3(inclination, azimuth + 90.0, 0.0)
  }

  /** The direction CameraLookAt pans to from eye (internal frame) toward a
      real-world target: AzEl's answer with its azimuth mirrored to 180 - y.
      A target on top of the eye gives (180, 180, 0). */
  function LookDirection(eye: Vec3, normtarget: Vec3, polar: Vec3 -> (real, real)): (r: Vec3)
    ensures r.z == 0.0
    ensures LengthSquared(Sub(FlipY(normtarget), eye)) < 0.01 ==> r == Vec3(180.0, 180.0, 0.0)
    ensures var delta := Sub(FlipY(normtarget), eye);
      LengthSquared(delta) >= 0.01 && -90.0 <= polar(delta).1 <= 90.0 ==> -180.0 <= r.y <= 180.0
  {
    var camera := AzEl(eye, FlipY(normtarget), polar);
    camera.(y := 180.0 - camera.y)
  }

  /** The direction after keyboard turning by rot: each axis wrapped by
      BoundedAngle, then the pitch limit. */
  function TurnedDirection(dir: Vec3, rot: Vec3): (r: Vec3)
    ensures 0.0 <= r.x <= 180.0
    ensures dir.y + rot.y >= -540.0 ==> -180.0 <= r.y < 180.0
    ensures dir.z + rot.z >= -540.0 ==> -180.0 <= r.z < 180.0
    ensures IsWhole((dir.y + rot.y - r.y) / 360.0) && IsWhole((dir.z + rot.z - r.z) / 360.0)
    ensures -180.0 <= dir.y + rot.y < 180.0 ==> r.y == dir.y + rot.y
    ensures -180.0 <= dir.z + rot.z < 180.0 ==> r.z == dir.z + rot.z
    ensures 0.0 <= dir.x + rot.x <= 180.0 ==> r.x == dir.x + rot.x
  {
    Vec3(ClampPitch(BoundedAngle(dir.x + rot.x)), BoundedAngle(dir.y + rot.y), BoundedAngle(dir.z + rot.z))
  }

  /** An unfolding aid for TurnBy: TurnedDirection axis by axis, so that the
      method's per-axis updates can be matched against it. */
  lemma TurnedDirectionAxes(dir: Vec3, rot: Vec3)
    ensures TurnedDirection(dir, rot) ==
      Vec3(ClampPitch(BoundedAngle(dir.x + rot.x)), BoundedAngle(dir.y + rot.y), BoundedAngle(dir.z + rot.z))
  {
  }

  /** The view target after keyboard movement by the camera-local vector m,
      with `rotate(dir, v)` the rotation of v by the camera direction. In
      elite movement the up/down component is not rotated, the rotated Y is
      dropped, and the internal Y moves by -m.z (up is -Y inside). */
  function MovedTarget(v: Vec3, dir: Vec3, m: Vec3, elite: bool, rotate: (Vec3, Vec3) -> Vec3): (r: Vec3)
    ensures elite ==> r.y == v.y - m.z
    ensures elite ==> r.x == v.x + rotate(dir, Vec3(m.x, m.y, 0.0)).x
    ensures elite ==> r.z == v.z + rotate(dir, Vec3(m.x, m.y, 0.0)).z
    ensures !elite ==> Sub(r, v) == rotate(dir, m)
  {
    if elite then
      var trans := rotate(dir, Vec3(m.x, m.y, 0.0)).(y := 0.0);
      var moved := Add(v, trans);
      moved.(y := moved.y - m.z)
    else
      Add(v, rotate(dir, m))
  }

  /** The projection SetProjectionMatrix loads. */
  datatype Projection =
    | Perspective(fovy: real, aspect: real, zNear: real, zFar: real)
    | Orthographic(left: real, right: real, bottom: real, top: real, zNear: real, zFar: real)

  lemma DivideThenMultiply(a: real, b: real)
    requires b != 0.0
    ensures a / b * b == a
  {
  }

  /** The projection for a w x h viewport: a perspective of the given field of
      view and the viewport's aspect, near plane 1; or an orthographic box
      2000 wide, centred, as tall as keeps the viewport's aspect, near plane
      -5000. Either way the near plane lies before the far one. */
  function ProjectionFor(pmode: bool, fov: real, w: int, h: int): (p: Projection)
    requires w > 0 && h > 0
    ensures p.Perspective? <==> pmode
    ensures p.zNear < p.zFar
    ensures p.Perspective? ==> p.fovy == fov && p.aspect * h as real == w as real && p.zNear == 1.0
    ensures p.Orthographic? ==>
      && p.left + p.right == 0.0 && p.bottom + p.top == 0.0
      && p.right == 1000.0 && p.top * w as real == 1000.0 * h as real
      && p.zNear == -5000.0
  {
    if pmode then
      DivideThenMultiply(w as real, h as real);
      Perspective(fov, w as real / h as real, 1.0, 1000000.0)
    else
      var orthoheight := 1000.0 * h as real / w as real;
      DivideThenMultiply(1000.0 * h as real, w as real);
      Orthographic(-1000.0, 1000.0, -orthoheight, orthoheight, -5000.0, 5000.0)
  }

  /** An 800 x 600 viewport in orthographic mode shows 2000 x 1500 units. */
  lemma OrthographicFourByThree()
    ensures ProjectionFor(false, 45.0, 800, 600) == Orthographic(-1000.0, 1000.0, -750.0, 750.0, -5000.0, 5000.0)
  {
  }

  /** PositionDirection: the camera's view target (internal frame, Y
      inverted), its direction in degrees (X pitch, Y roll, Z yaw), the
      projection mode, and the position and direction slews. */
  class PositionDirection {
    var perspective: bool
    var viewTarget: Vec3
    var cameraDir: Vec3
    var posSlew: Timer
    var dirSlew: Timer

    /** What the slew step asserts of each timer: a running position slew has
        a positive duration, a running direction slew a non-zero one. */
    ghost predicate Valid()
      reads this
    {
      && (!Idle(posSlew) ==> posSlew.time > 0.0)
      && (!Idle(dirSlew) ==> dirSlew.time != 0.0)
    }

    /** A new camera at the origin, facing (0, 0, 0), orthographic, with both
        slews idle. */
    constructor ()
      ensures Valid() && !InSlews()
      ensures !perspective && viewTarget == Zero && cameraDir == Zero
    {
      perspective := false;
      viewTarget := Zero;
      cameraDir := Zero;
      posSlew := Timer(1.0, 0.0, Zero);
      dirSlew := Timer(1.0, 0.0, Zero);
    }

    /** The real-world position of the view target, Y the right way up. */
    function Position(): (p: Vec3)
      reads this
      ensures FlipY(p) == viewTarget
    {
      FlipY(viewTarget)
    }

    /** Whether either slew is still under way. */
    function InSlews(): (b: bool)
      reads this
      ensures !b <==> Idle(posSlew) && Idle(dirSlew)
    {
      posSlew.progress < 1.0 || dirSlew.progress < 1.0
    }

    /** Stores pos as the INTERNAL view target, without inverting Y: reading
        Position back gives pos only when pos.y is 0. */
    method SetCameraPos(pos: Vec3)
      requires Valid()
      modifies this
      ensures Valid()
      ensures viewTarget == pos
      ensures Position() == pos <==> pos.y == 0.0
      ensures cameraDir == old(cameraDir) && perspective == old(perspective)
      ensures posSlew == old(posSlew) && dirSlew == old(dirSlew)
    {
      viewTarget := pos;
    }

    /** Moves the internal view target by delta: the real-world position moves
        by delta with its Y inverted. */
    method MoveCameraPos(delta: Vec3)
      requires Valid()
      modifies this
      ensures Valid()
      ensures viewTarget == Add(old(viewTarget), delta)
      ensures Position() == Add(old(Position()), FlipY(delta))
      ensures cameraDir == old(cameraDir) && perspective == old(perspective)
      ensures posSlew == old(posSlew) && dirSlew == old(dirSlew)
    {
      viewTarget := Add(viewTarget, delta);
    }

    /** Sends the camera to the real-world position normpos. A NaN X, or a
        distance check below 1, changes nothing. Otherwise a zero time jumps
        there at once, leaving any running slew as it is; a non-zero time
        starts a position slew there from progress 0, of SlewDuration. */
    method StartCameraSlew(normpos: VecArg, timeslewsec: real, sqrt: real -> real)
      requires Valid()
      modifies this
      ensures Valid()
      ensures !SlewAccepted(old(viewTarget), normpos) ==>
        viewTarget == old(viewTarget) && posSlew == old(posSlew)
      ensures SlewAccepted(old(viewTarget), normpos) && timeslewsec == 0.0 ==>
        Position() == normpos.v && posSlew == old(posSlew)
      ensures SlewAccepted(old(viewTarget), normpos) && timeslewsec != 0.0 ==>
        && viewTarget == old(viewTarget)
        && posSlew == Timer(0.0, SlewDuration(timeslewsec, SlewRadicand(old(viewTarget), FlipY(normpos.v)), sqrt), FlipY(normpos.v))
        && InSlews()
      ensures cameraDir == old(cameraDir) && dirSlew == old(dirSlew) && perspective == old(perspective)
    {
      if normpos.Vec? {
        var pos := FlipY(normpos.v);
        var radicand := SlewRadicand(viewTarget, pos);
        if radicand >= 1.0 {
          if timeslewsec == 0.0 {
            viewTarget := pos;
            FlipYInvolution(normpos.v);
          } else {
            var time := if timeslewsec < 0.0 then Max(2.0, sqrt(radicand) / 10000.0) else timeslewsec;
            posSlew := Timer(0.0, time, pos);
          }
        }
      }
    }

    method SetCameraDir(dir: Vec3)
      requires Valid()
      modifies this
      ensures Valid()
      ensures cameraDir == dir
      ensures viewTarget == old(viewTarget) && perspective == old(perspective)
      ensures posSlew == old(posSlew) && dirSlew == old(dirSlew)
    {
      cameraDir := dir;
    }

    /** Turns the camera by rot and applies the pitch limit: pitch ends in
        [0, 180]; roll and yaw are simply added. */
    method RotateCameraDir(rot: Vec3)
      requires Valid()
      modifies this
      ensures Valid()
      ensures cameraDir == Vec3(ClampPitch(old(cameraDir).x + rot.x), old(cameraDir).y + rot.y, old(cameraDir).z + rot.z)
      ensures 0.0 <= cameraDir.x <= 180.0
      ensures viewTarget == old(viewTarget) && perspective == old(perspective)
      ensures posSlew == old(posSlew) && dirSlew == old(dirSlew)
    {
      cameraDir := Add(cameraDir, rot);
      if cameraDir.x < 0.0 && cameraDir.x > -90.0 {
        cameraDir := cameraDir.(x := 0.0);
      }
      if cameraDir.x > 180.0 || cameraDir.x <= -90.0 {
        cameraDir := cameraDir.(x := 180.0);
      }
    }

    /** Turns the camera to dir. A NaN X changes nothing; a zero time turns at
        once; any other time, negative included, starts a direction slew of
        exactly that duration (the 1-second default for 0 is never reached). */
    method StartCameraPan(dir: VecArg, timeslewsec: real)
      requires Valid()
      modifies this
      ensures Valid()
      ensures dir.NaNX? ==> cameraDir == old(cameraDir) && dirSlew == old(dirSlew)
      ensures dir.Vec? && timeslewsec == 0.0 ==> cameraDir == dir.v && dirSlew == old(dirSlew)
      ensures dir.Vec? && timeslewsec != 0.0 ==>
        cameraDir == old(cameraDir) && dirSlew == Timer(0.0, timeslewsec, dir.v) && InSlews()
      ensures viewTarget == old(viewTarget) && posSlew == old(posSlew) && perspective == old(perspective)
    {
      if dir.Vec? {
        if timeslewsec == 0.0 {
          cameraDir := dir.v;
        } else {
          dirSlew := Timer(0.0, if timeslewsec == 0.0 then 1.0 else timeslewsec, dir.v);
        }
      }
    }

    /** Pans the camera to face the real-world point normtarget from the view
        target, at once or over `time` seconds. `zoom` is not used. */
    method CameraLookAt(normtarget: Vec3, zoom: real, time: real, polar: Vec3 -> (real, real))
      requires Valid()
      modifies this
      ensures Valid()
      ensures var dir := LookDirection(old(viewTarget), normtarget, polar);
        if time == 0.0 then cameraDir == dir && dirSlew == old(dirSlew)
        else cameraDir == old(cameraDir) && dirSlew == Timer(0.0, time, dir)
      ensures viewTarget == old(viewTarget) && posSlew == old(posSlew) && perspective == old(perspective)
    {
      var target := FlipY(normtarget);
      var eye := viewTarget;
      var camera := AzEl(eye, target, polar);
      camera := camera.(y := 180.0 - camera.y);
      StartCameraPan(Vec(camera), time);
    }

    /** Ends both slews where they are: nothing is slewing any more, and the
        position and direction stay as they were. */
    method KillSlews()
      requires Valid()
      modifies this
      ensures Valid() && !InSlews()
      ensures posSlew == old(posSlew).(progress := 1.0) && dirSlew == old(dirSlew).(progress := 1.0)
      ensures viewTarget == old(viewTarget) && cameraDir == old(cameraDir) && perspective == old(perspective)
    {
      posSlew := posSlew.(progress := 1.0);
      dirSlew := dirSlew.(progress := 1.0);
    }

    /** Advances both slews by one frame tick of msticks milliseconds with the
        easing curve `ease`; asks for a repaint exactly when a slew was under
        way. Each timer and its quantity move as Advance says. */
    method DoCameraSlew(msticks: int, ease: real -> real) returns (repaint: bool)
      requires Valid()
      requires CanAdvance(posSlew, msticks, ease) && CanAdvance(dirSlew, msticks, ease)
      modifies this
      ensures Valid()
      ensures repaint == old(InSlews())
      ensures (posSlew, viewTarget) == Advance(old(posSlew), old(viewTarget), msticks, ease)
      ensures (dirSlew, cameraDir) == Advance(old(dirSlew), old(cameraDir), msticks, ease)
      ensures perspective == old(perspective)
    {
      repaint := false;

      if posSlew.progress < 1.0 {
        var newprogress := NextProgress(posSlew, msticks);
        if newprogress >= 1.0 {
          viewTarget := posSlew.goal;
        } else {
          var slewfact := SlewFactor(ease, posSlew.progress, newprogress);
          var totvector := Sub(posSlew.goal, viewTarget);
          viewTarget := Add(viewTarget, Scale(totvector, slewfact));
        }
        repaint := true;
        posSlew := posSlew.(progress := newprogress);
      }

      if dirSlew.progress < 1.0 {
        var newprogress := NextProgress(dirSlew, msticks);
        if newprogress >= 1.0 {
          cameraDir := dirSlew.goal;
        } else {
          var slewfact := SlewFactor(ease, dirSlew.progress, newprogress);
          var totvector := Sub(dirSlew.goal, cameraDir);
          cameraDir := Add(cameraDir, Scale(totvector, slewfact));
        }
        repaint := true;
        dirSlew := dirSlew.(progress := newprogress);
      }
    }

    /** Keyboard turning for one tick: turns exactly when the tick takes time
        and a turning key is held, by TurnRotation, each axis wrapped and the
        pitch limited; otherwise changes nothing. */
    method HandleTurningAdjustments(held: set<Action>, msticks: int) returns (turned: bool)
      requires Valid()
      modifies this
      ensures Valid()
      ensures turned <==> msticks != 0 && AnyHeld(TurnOrder, held)
      ensures turned ==> cameraDir == TurnedDirection(old(cameraDir), TurnRotation(held, msticks))
      ensures !turned ==> cameraDir == old(cameraDir)
      ensures viewTarget == old(viewTarget) && perspective == old(perspective)
      ensures posSlew == old(posSlew) && dirSlew == old(dirSlew)
    {
      var rotation := Zero;
      var angle := msticks as real * 0.075;
      if YawLeft in held {
        rotation := rotation.(z := -angle);
      }
      if YawRight in held {
        rotation := rotation.(z := angle);
      }
      if Dive in held {
        rotation := rotation.(x := -angle);
      }
      if Pitch in held {
        rotation := rotation.(x := angle);
      }
      if RollLeft in held {
        rotation := rotation.(y := -angle);
      }
      if RollRight in held {
        rotation := rotation.(y := angle);
      }
      assert rotation == TurnRotation(held, msticks);
      TurnsIffKeyHeld(held, msticks);
      // LengthSquared(rotation) > 0, which SquaredLengthPositive shows is this test
      if rotation != Zero {
        TurnBy(rotation);
        turned := true;
      } else {
        turned := false;
      }
    }

    /** The turning step of HandleTurningAdjustments: each axis turned by rot
        and wrapped by BoundedAngle, then the pitch limit. */
    method TurnBy(rot: Vec3)
      requires Valid()
      modifies this
      ensures Valid()
      ensures cameraDir == TurnedDirection(old(cameraDir), rot)
      ensures viewTarget == old(viewTarget) && perspective == old(perspective)
      ensures posSlew == old(posSlew) && dirSlew == old(dirSlew)
    {
      TurnedDirectionAxes(cameraDir, rot);
      cameraDir := Vec3(BoundedAngle(cameraDir.x + rot.x),
                        BoundedAngle(cameraDir.y + rot.y),
                        BoundedAngle(cameraDir.z + rot.z));
      if cameraDir.x < 0.0 && cameraDir.x > -90.0 {
        cameraDir := cameraDir.(x := 0.0);
      }
      if cameraDir.x > 180.0 || cameraDir.x <= -90.0 {
        cameraDir := cameraDir.(x := 180.0);
      }
    }

    /** Keyboard movement for one tick: moves exactly when the tick takes time
        and a movement key is held, by MoveVector turned into world space by
        `rotate`, in elite style only in perspective mode; otherwise changes
        nothing. */
    method HandleMovementAdjustments(held: set<Action>, msticks: int, zoom: real, shift: bool,
                                     elitemovement: bool, rotate: (Vec3, Vec3) -> Vec3)
      returns (moved: bool)
      requires Valid()
      modifies this
      ensures Valid()
      ensures moved <==> msticks != 0 && AnyHeld(MoveOrder, held)
      ensures moved ==> viewTarget == MovedTarget(old(viewTarget), old(cameraDir),
                                                  MoveVector(held, msticks, zoom, shift),
                                                  elitemovement && old(perspective), rotate)
      ensures !moved ==> viewTarget == old(viewTarget)
      ensures cameraDir == old(cameraDir) && perspective == old(perspective)
      ensures posSlew == old(posSlew) && dirSlew == old(dirSlew)
    {
      var movement := Zero;
      var distance := StepDistance(msticks, zoom, shift);

      if Left in held {
        movement := movement.(x := -distance);
      }
      if Right in held {
        movement := movement.(x := distance);
      }
      if Forwards in held {
        movement := movement.(y := distance);
      }
      if Backwards in held {
        movement := movement.(y := -distance);
      }
      if Up in held {
        movement := movement.(z := distance);
      }
      if Down in held {
        movement := movement.(z := -distance);
      }
      assert movement == MoveVector(held, msticks, zoom, shift);
      MovesIffKeyHeld(held, msticks, zoom, shift);

      // LengthSquared(movement) > 0, which SquaredLengthPositive shows is this test
      if movement != Zero {
        MoveBy(movement, elitemovement, rotate);
        moved := true;
      } else {
        moved := false;
      }
    }

    /** The moving step of HandleMovementAdjustments: elite movement only in
        perspective mode, the requested move turned into world space by
        `rotate`, and in elite movement the rotated Y replaced by -m.z. */
    method MoveBy(m: Vec3, elitemovement: bool, rotate: (Vec3, Vec3) -> Vec3)
      requires Valid()
      modifies this
      ensures Valid()
      ensures viewTarget == MovedTarget(old(viewTarget), old(cameraDir), m, elitemovement && old(perspective), rotate)
      ensures cameraDir == old(cameraDir) && perspective == old(perspective)
      ensures posSlew == old(posSlew) && dirSlew == old(dirSlew)
    {
      var elite := elitemovement;
      if !perspective {
        elite := false;
      }
      var requested := Vec3(m.x, m.y, if elite then 0.0 else m.z);
      var trans := rotate(cameraDir, requested);
      if elite {
        trans := trans.(y := 0.0);
        viewTarget := Add(viewTarget, trans);
        viewTarget := viewTarget.(y := viewTarget.y - m.z);
      } else {
        viewTarget := Add(viewTarget, trans);
      }
    }

    /** The state part of setting up the projection for a w x h viewport:
        records the mode and reports the near plane, 1 in perspective and
        -5000 in orthographic mode, with the projection ProjectionFor gives. */
    method SetProjectionMatrix(pmode: bool, fov: real, w: int, h: int) returns (znear: real, proj: Projection)
      requires Valid()
      requires w > 0 && h > 0
      modifies this
      ensures Valid()
      ensures perspective == pmode
      ensures znear == (if pmode then 1.0 else -5000.0)
      ensures proj == ProjectionFor(pmode, fov, w, h) && znear == proj.zNear
      ensures viewTarget == old(viewTarget) && cameraDir == old(cameraDir)
      ensures posSlew == old(posSlew) && dirSlew == old(dirSlew)
    {
      perspective := pmode;
      znear := 1.0;
      if perspective {
        proj := Perspective(fov, w as real / h as real, 1.0, 1000000.0);
        znear := 1.0;
      } else {
        var orthoheight := 1000.0 * h as real / w as real;
        proj := Orthographic(-1000.0, 1000.0, -orthoheight, orthoheight, -5000.0, 5000.0);
        znear := -5000.0;
      }
    }
  }

  /** The class side of StartedSlewArrives: a one-second position slew to
      the real-world point v, then two frame ticks of 500 ms. The first tick
      takes the slew halfway; the second lands the camera exactly on v with the
      position slew over, and with nothing slewing if the direction was at
      rest. */
  method SlewInTwoTicks(c: PositionDirection, v: Vec3, sqrt: real -> real, ease: real -> real)
    requires c.Valid() && Healthy(c.dirSlew) && IsEasing(ease)
    requires SlewAccepted(c.viewTarget, Vec(v))
    modifies c
    ensures c.Valid() && c.Position() == v && Idle(c.posSlew)
    ensures Idle(old(c.dirSlew)) ==> !c.InSlews()
  {
    c.StartCameraSlew(Vec(v), 1.0, sqrt);
    assert c.posSlew == Timer(0.0, 1.0, FlipY(v));
    AdvanceTowardGoal(c.posSlew, c.viewTarget, 500, ease);
    AdvanceTowardGoal(c.dirSlew, c.cameraDir, 500, ease);
    var moving := c.DoCameraSlew(500, ease);
    assert c.posSlew == Timer(0.5, 1.0, FlipY(v));
    AdvanceTowardGoal(c.dirSlew, c.cameraDir, 500, ease);
    moving := c.DoCameraSlew(500, ease);
    FlipYInvolution(v);
  }
}
