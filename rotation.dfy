/**
 * The two rotate buttons of the editor: each press adds a fixed step to the
 * rotation and takes the result with JavaScript's remainder operator.
 */
module Rotation {

  /** JavaScript's `a % 360` on an integral number: the remainder of
      truncated division, which takes the sign of the dividend. */
  function JsRem360(a: int): (r: int)
    ensures -360 < r < 360
    ensures a >= 0 ==> r == a % 360
    ensures a <= 0 ==> r <= 0
    ensures (a - r) % 360 == 0
  {
    if a >= 0 then a % 360 else -((-a) % 360)
  }

  /** The rotation after one press of the 45-degree button. */
  function Rotate45(rotation: int): (next: int)
  {
    JsRem360(rotation + 45)
  }

  /** The rotation after one press of the 90-degree button. */
  function Rotate90(rotation: int): (next: int)
  {
    JsRem360(rotation + 90)
  }

  /** The rotations the buttons can reach from the initial rotation 0. */
  predicate IsStep(rotation: int)
  {
    0 <= rotation < 360 && rotation % 45 == 0
  }

  /** The two rotate buttons. */
  datatype RotateButton = By45 | By90

  /** The rotation after one press of button `b`. */
  function Press(rotation: int, b: RotateButton): (next: int)
  {
    match b
    case By45 => Rotate45(rotation)
    case By90 => Rotate90(rotation)
  }

  /** The rotation after pressing the buttons in order. */
  function PressAll(rotation: int, presses: seq<RotateButton>): (final: int)
  {
    if presses == [] then rotation
    else Press(PressAll(rotation, presses[..|presses| - 1]), presses[|presses| - 1])
  }

  /** The number of 45-degree steps a sequence of presses amounts to: one
      or two per press. */
  function Steps(presses: seq<RotateButton>): (n: nat)
    ensures |presses| <= n <= 2 * |presses|
  {
    if presses == [] then 0
    else Steps(presses[..|presses| - 1]) + (if presses[|presses| - 1] == By45 then 1 else 2)
  }

  /** The rotation after n presses of the 45-degree button. */
  function Rotate45Times(rotation: int, n: nat): (final: int)
  {
    if n == 0 then rotation else Rotate45(Rotate45Times(rotation, n - 1))
  }

  /** The rotation after n presses of the 90-degree button. */
  function Rotate90Times(rotation: int, n: nat): (final: int)
  {
    if n == 0 then rotation else Rotate90(Rotate90Times(rotation, n - 1))
  }

  /** Adding whole turns does not change the remainder. */
  lemma ModOfShift(x: int, q: int)
    ensures (x + 360 * q) % 360 == x % 360
  {
  }

  /** Reducing the left operand first does not change the remainder of a sum. */
  lemma ModAddLeft(a: int, b: int)
    ensures (a % 360 + b) % 360 == (a + b) % 360
  {
    var q := a / 360;
    assert a == 360 * q + a % 360;
    ModOfShift(a % 360 + b, q);
  }

  /** Both buttons keep the rotation among the reachable values. */
  lemma {:induction false} StepsStayReachable(rotation: int)
    requires IsStep(rotation)
    ensures IsStep(Rotate45(rotation)) && IsStep(Rotate90(rotation))
  {
    var k := rotation / 45;
    assert rotation == 45 * k && 0 <= k < 8;
    if k < 7 {
      assert Rotate45(rotation) == 45 * (k + 1);
    } else {
      assert Rotate45(rotation) == 0;
    }
    if k < 6 {
      assert Rotate90(rotation) == 45 * (k + 2);
    } else {
      assert Rotate90(rotation) == 45 * (k - 6);
    }
  }

  /** Any sequence of presses from a reachable rotation amounts to a total
      turn of 45 degrees per step, reduced modulo 360. */
  lemma {:induction false} PressAllTurns(rotation: int, presses: seq<RotateButton>)
    requires IsStep(rotation)
    ensures PressAll(rotation, presses) == (rotation + 45 * Steps(presses)) % 360
    ensures IsStep(PressAll(rotation, presses))
  {
    if presses != [] {
      var init := presses[..|presses| - 1];
      var prev := PressAll(rotation, init);
      PressAllTurns(rotation, init);
      StepsStayReachable(prev);
      var d := if presses[|presses| - 1] == By45 then 45 else 90;
      assert PressAll(rotation, presses) == (prev + d) % 360;
      ModAddLeft(rotation + 45 * Steps(init), d);
    }
  }

  /** From the initial rotation 0, any sequence of presses leaves a rotation
      in [0, 360) that is a multiple of 45. */
  lemma ReachableFromInitial(presses: seq<RotateButton>)
    ensures IsStep(PressAll(0, presses))
  {
    PressAllTurns(0, presses);
  }

  lemma {:induction false} Rotate45TimesTurns(rotation: int, n: nat)
    requires 0 <= rotation < 360
    ensures Rotate45Times(rotation, n) == (rotation + 45 * n) % 360
  {
    if n > 0 {
      Rotate45TimesTurns(rotation, n - 1);
      var prev := Rotate45Times(rotation, n - 1);
      assert prev >= 0 && Rotate45Times(rotation, n) == (prev + 45) % 360;
      ModAddLeft(rotation + 45 * (n - 1), 45);
      assert rotation + 45 * (n - 1) + 45 == rotation + 45 * n;
    }
  }

  lemma {:induction false} Rotate90TimesTurns(rotation: int, n: nat)
    requires 0 <= rotation < 360
    ensures Rotate90Times(rotation, n) == (rotation + 90 * n) % 360
  {
    if n > 0 {
      Rotate90TimesTurns(rotation, n - 1);
      var prev := Rotate90Times(rotation, n - 1);
      assert prev >= 0 && Rotate90Times(rotation, n) == (prev + 90) % 360;
      ModAddLeft(rotation + 90 * (n - 1), 90);
      assert rotation + 90 * (n - 1) + 90 == rotation + 90 * n;
    }
  }

  /** A turn strictly between 0 and 360 degrees moves every rotation in [0, 360). */
  lemma ShiftMoves(rotation: int, d: int)
    requires 0 <= rotation < 360 && 0 < d < 360
    ensures (rotation + d) % 360 != rotation
  {
    if rotation + d < 360 {
      assert (rotation + d) % 360 == rotation + d;
    } else {
      assert (rotation + d) % 360 == rotation + d - 360;
    }
  }

  /** Pressing the 45-degree button n times from a rotation in [0, 360)
      returns to it exactly when n is a multiple of eight. */
  lemma Rotate45Period(rotation: int, n: nat)
    requires 0 <= rotation < 360
    ensures Rotate45Times(rotation, n) == rotation <==> n % 8 == 0
  {
    Rotate45TimesTurns(rotation, n);
    var q, k := n / 8, n % 8;
    assert n == 8 * q + k;
    assert rotation + 45 * n == (rotation + 45 * k) + 360 * q;
    ModOfShift(rotation + 45 * k, q);
    if k == 0 {
      assert (rotation + 45 * k) % 360 == rotation;
    } else {
      ShiftMoves(rotation, 45 * k);
    }
  }

  /** Pressing the 90-degree button n times from a rotation in [0, 360)
      returns to it exactly when n is a multiple of four. */
  lemma Rotate90Period(rotation: int, n: nat)
    requires 0 <= rotation < 360
    ensures Rotate90Times(rotation, n) == rotation <==> n % 4 == 0
  {
    Rotate90TimesTurns(rotation, n);
    var q, k := n / 4, n % 4;
    assert n == 4 * q + k;
    assert rotation + 90 * n == (rotation + 90 * k) + 360 * q;
    ModOfShift(rotation + 90 * k, q);
    if k == 0 {
      assert (rotation + 90 * k) % 360 == rotation;
    } else {
      ShiftMoves(rotation, 90 * k);
    }
  }

  /** One press of the 90-degree button equals two presses of the 45-degree one. */
  lemma Rotate90IsTwo45(rotation: int)
    requires rotation >= 0
    ensures Rotate90(rotation) == Rotate45(Rotate45(rotation))
  {
    ModAddLeft(rotation + 45, 45);
  }
}
