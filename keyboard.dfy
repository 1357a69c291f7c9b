/** Keyboard-driven turning and movement of the 3D map camera: the action
    flags held this tick, scanned in the fixed order the camera tests them. */
module Keyboard {
  import opened Geometry

  /** The keyboard actions the camera polls once per tick. */
  datatype Action =
    | YawLeft | YawRight | Dive | Pitch | RollLeft | RollRight
    | Left | Right | Forwards | Backwards | Up | Down

  /** The order in which HandleTurningAdjustments tests its flags. */
  const TurnOrder: seq<Action> := [YawLeft, YawRight, Dive, Pitch, RollLeft, RollRight]

  /** The order in which HandleMovementAdjustments tests its flags. */
  const MoveOrder: seq<Action> := [Left, Right, Forwards, Backwards, Up, Down]

  /** What one held key does to the action vector: it SETS one axis to plus
      or minus the amount (it does not add to it). */
  function Press(a: Action, v: Vec3, amount: real): Vec3 {
    match a
    case YawLeft => v.(z := -amount)
    case YawRight => v.(z := amount)
    case Dive => v.(x := -amount)
    case Pitch => v.(x := amount)
    case RollLeft => v.(y := -amount)
    case RollRight => v.(y := amount)
    case Left => v.(x := -amount)
    case Right => v.(x := amount)
    case Forwards => v.(y := amount)
    case Backwards => v.(y := -amount)
    case Up => v.(z := amount)
    case Down => v.(z := -amount)
  }

  /** Tests the flags in `order` one after the other, applying each held one.
      This is the handlers' chain of ifs as a recursion; TurnRotation and
      MoveVector unfold it (through ScanSix) into the per-axis LaterWins form
      their contracts state, which the handlers' own if-chains are checked
      against. */
  function Scan(order: seq<Action>, held: set<Action>, v: Vec3, amount: real): Vec3
    decreases |order|
  {
    if order == [] then v
    else Scan(order[1..], held, if order[0] in held then Press(order[0], v, amount) else v, amount)
  }

  /** One axis of an action vector driven by two opposing keys: the key
      tested later wins when both are held; neither leaves the axis at 0. */
  function LaterWins(first: bool, firstValue: real, second: bool, secondValue: real): real {
    if second then secondValue else if first then firstValue else 0.0
  }

  /** The rotation asked for this tick, msticks * 0.075 degrees per held key:
      pitch (X) from Dive and Pitch, roll (Y) from RollLeft and RollRight, yaw
      (Z) from YawLeft and YawRight, each axis won by the key tested later. */
  function TurnRotation(held: set<Action>, msticks: int): (r: Vec3)
    ensures var angle := msticks as real * 0.075;
      r == Vec3(LaterWins(Dive in held, -angle, Pitch in held, angle),
                LaterWins(RollLeft in held, -angle, RollRight in held, angle),
                LaterWins(YawLeft in held, -angle, YawRight in held, angle))
  {
    var angle := msticks as real * 0.075;
    ScanSix(TurnOrder, held, Zero, angle);
    Scan(TurnOrder, held, Zero, angle)
  }

  /** Unrolls a scan over six flags into six tests. */
  lemma ScanSix(order: seq<Action>, held: set<Action>, v: Vec3, amount: real)
    requires |order| == 6
    ensures
      var step := (a: Action, w: Vec3) => if a in held then Press(a, w, amount) else w;
      Scan(order, held, v, amount) ==
        step(order[5], step(order[4], step(order[3], step(order[2], step(order[1], step(order[0], v))))))
  {
    var step := (a: Action, w: Vec3) => if a in held then Press(a, w, amount) else w;
    var w1 := step(order[0], v);
    var w2 := step(order[1], w1);
    var w3 := step(order[2], w2);
    var w4 := step(order[3], w3);
    var w5 := step(order[4], w4);
    var w6 := step(order[5], w5);
    assert Scan(order[5..], held, w5, amount) == w6 by {
      assert order[5..][1..] == [];
    }
    assert Scan(order[4..], held, w4, amount) == w6 by {
      assert order[4..][1..] == order[5..];
    }
    assert Scan(order[3..], held, w3, amount) == w6 by {
      assert order[3..][1..] == order[4..];
    }
    assert Scan(order[2..], held, w2, amount) == w6 by {
      assert order[2..][1..] == order[3..];
    }
    assert Scan(order[1..], held, w1, amount) == w6 by {
      assert order[1..][1..] == order[2..];
    }
  }

  /** Zoom as the movement step sees it: clamped into [0.01, 15]. */
  function ZoomLimited(zoom: real): (z: real)
    ensures 0.01 <= z <= 15.0
    ensures 0.01 <= zoom <= 15.0 ==> z == zoom
    ensures zoom < 0.01 ==> z == 0.01
    ensures zoom > 15.0 ==> z == 15.0
  {
    Min(Max(zoom, 0.01), 15.0)
  }

  /** How far one tick moves: msticks / clamped zoom, so that the apparent
      speed on screen stays the same at every zoom; doubled with Shift. */
  function StepDistance(msticks: int, zoom: real, shift: bool): (d: real)
    ensures d * ZoomLimited(zoom) == (if shift then 2.0 else 1.0) * msticks as real
    ensures msticks >= 0 ==> d >= 0.0
    ensures d == 0.0 <==> msticks == 0
  {
    var zoomlimited := ZoomLimited(zoom);
    var distance := msticks as real * (1.0 / zoomlimited);
    StepDistanceScales(msticks, zoomlimited);
    if shift then distance * 2.0 else distance
  }

  lemma StepDistanceScales(msticks: int, zoomlimited: real)
    requires zoomlimited > 0.0
    ensures msticks as real * (1.0 / zoomlimited) * zoomlimited == msticks as real
    ensures msticks as real * (1.0 / zoomlimited) * 2.0 * zoomlimited == 2.0 * msticks as real
    ensures msticks >= 0 ==> msticks as real * (1.0 / zoomlimited) >= 0.0
    ensures msticks as real * (1.0 / zoomlimited) == 0.0 <==> msticks == 0
  {
    ProductZero(msticks as real, 1.0 / zoomlimited);
  }

  /** The camera-local movement asked for this tick: X from Left and Right,
      Y from Forwards and Backwards, Z from Up and Down, each axis won by the
      key tested later, each of length StepDistance. */
  function MoveVector(held: set<Action>, msticks: int, zoom: real, shift: bool): (r: Vec3)
    ensures var d := StepDistance(msticks, zoom, shift);
      r == Vec3(LaterWins(Left in held, -d, Right in held, d),
                LaterWins(Forwards in held, d, Backwards in held, -d),
                LaterWins(Up in held, d, Down in held, -d))
  {
    var d := StepDistance(msticks, zoom, shift);
    ScanSix(MoveOrder, held, Zero, d);
    Scan(MoveOrder, held, Zero, d)
  }

  /** Some key of `order` is held. */
  predicate AnyHeld(order: seq<Action>, held: set<Action>) {
    exists a :: a in order && a in held
  }

  /** The camera turns in a tick exactly when the tick takes time and some
      turning key is held: opposing keys never cancel out. */
  lemma TurnsIffKeyHeld(held: set<Action>, msticks: int)
    ensures TurnRotation(held, msticks) != Zero <==> msticks != 0 && AnyHeld(TurnOrder, held)
  {
    if msticks != 0 && AnyHeld(TurnOrder, held) {
      var a :| a in TurnOrder && a in held;
      assert a in {YawLeft, YawRight, Dive, Pitch, RollLeft, RollRight};
    }
  }

  /** The camera moves in a tick exactly when the tick takes time and some
      movement key is held: opposing keys never cancel out. */
  lemma MovesIffKeyHeld(held: set<Action>, msticks: int, zoom: real, shift: bool)
    ensures MoveVector(held, msticks, zoom, shift) != Zero <==> msticks != 0 && AnyHeld(MoveOrder, held)
  {
    if msticks != 0 && AnyHeld(MoveOrder, held) {
      var a :| a in MoveOrder && a in held;
      assert a in {Left, Right, Forwards, Backwards, Up, Down};
    }
  }

  /** Forwards alone at zoom 1 for 100 ms moves 100 units along local Y, 200
      with Shift. */
  lemma ForwardsAtZoomOne(shift: bool)
    ensures MoveVector({Forwards}, 100, 1.0, shift) == Vec3(0.0, if shift then 200.0 else 100.0, 0.0)
  {
  }
}
