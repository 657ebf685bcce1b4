/**
 * The listener's heading controls: 15-degree steps left and right,
 * wrapped with the host's remainder operator.
 */
module ListenerControls {
  import opened SonarTypes

  const Step: int := 15
  const FullTurn: int := 360

  /** `(rotation - 15 + 360) % 360`. */
  function RotateLeft(rotation: int): (r: int)
    ensures -FullTurn < r < FullTurn
    ensures rotation >= Step - FullTurn ==> 0 <= r < FullTurn
  {
    JsIntRem(rotation - Step + FullTurn, FullTurn)
  }

  /** `(rotation + 15) % 360`. */
  function RotateRight(rotation: int): (r: int)
    ensures -FullTurn < r < FullTurn
    ensures rotation >= -Step ==> 0 <= r < FullTurn
  {
    JsIntRem(rotation + Step, FullTurn)
  }

  /** `n` presses of the right button. */
  function RotateRightN(rotation: int, n: nat): int
  {
    if n == 0 then rotation else RotateRight(RotateRightN(rotation, n - 1))
  }

  /** A button press. */
  datatype Press = Left | Right

  function Apply(rotation: int, p: Press): int
  {
    match p
    case Left => RotateLeft(rotation)
    case Right => RotateRight(rotation)
  }

  /** The heading after pressing the buttons in `ps`, first press first. */
  function ApplyAll(rotation: int, ps: seq<Press>): int
  {
    if ps == [] then rotation else Apply(ApplyAll(rotation, ps[..|ps| - 1]), ps[|ps| - 1])
  }

  /** A heading in [0, 360) that is a multiple of 15. */
  predicate OnGrid(r: int)
  {
    0 <= r < FullTurn && r % Step == 0
  }

  /** On headings in [0, 360) the two buttons undo each other. */
  lemma RotationsInverse(r: int)
    requires 0 <= r < FullTurn
    ensures RotateLeft(RotateRight(r)) == r
    ensures RotateRight(RotateLeft(r)) == r
  {
    var right := r + Step;
    if right < FullTurn {
      ModUnique(right, FullTurn, 0, right);
    } else {
      ModUnique(right, FullTurn, 1, right - FullTurn);
    }
    var left := r - Step + FullTurn;
    if left < FullTurn {
      ModUnique(left, FullTurn, 0, left);
    } else {
      ModUnique(left, FullTurn, 1, left - FullTurn);
    }
    var rr := RotateRight(r);
    ModUnique(rr - Step + FullTurn, FullTurn, (rr - Step + FullTurn) / FullTurn, r);
    var ll := RotateLeft(r);
    ModUnique(ll + Step, FullTurn, (ll + Step) / FullTurn, r);
  }

  /** Either button keeps a heading on the 15-degree grid in [0, 360). */
  lemma PressKeepsGrid(r: int, p: Press)
    requires OnGrid(r)
    ensures OnGrid(Apply(r, p))
  {
    var a := r / 15;
    ModUnique(r, 15, a, 0);
    match p
    case Right =>
      if r + 15 < 360 {
        ModUnique(r + 15, 360, 0, r + 15);
        ModUnique(r + 15, 15, a + 1, 0);
      } else {
        ModUnique(r + 15, 360, 1, r + 15 - 360);
      }
    case Left =>
      if r + 345 < 360 {
        ModUnique(r + 345, 360, 0, r + 345);
        ModUnique(r + 345, 15, a + 23, 0);
      } else {
        ModUnique(r + 345, 360, 1, r - 15);
        ModUnique(r - 15, 15, a - 1, 0);
      }
  }

  /**
   * Any sequence of left and right presses from a heading on the grid,
   * such as the initial north, stays a multiple of 15 in [0, 360).
   */
  lemma {:induction false} PressesStayOnGrid(rotation: int, ps: seq<Press>)
    requires OnGrid(rotation)
    ensures OnGrid(ApplyAll(rotation, ps))
  {
    if ps != [] {
      PressesStayOnGrid(rotation, ps[..|ps| - 1]);
      PressKeepsGrid(ApplyAll(rotation, ps[..|ps| - 1]), ps[|ps| - 1]);
    }
  }

  /** From a non-negative heading, n right presses add 15·n degrees modulo 360. */
  lemma {:induction false} RotateRightNClosedForm(rotation: int, n: nat)
    requires 0 <= rotation < FullTurn
    ensures RotateRightN(rotation, n) == (rotation + 15 * n) % 360
  {
    if n == 0 {
      ModUnique(rotation, 360, 0, rotation);
    } else {
      RotateRightNClosedForm(rotation, n - 1);
      var a := rotation + 15 * (n - 1);
      var q, s := a / 360, a % 360;
      var t := s + 15;
      ModUnique(a + 15, 360, q + t / 360, t % 360);
    }
  }

  /** Starting from north (0), every heading reached is a multiple of 15 in [0, 360). */
  lemma RightPressesFromNorth(n: nat)
    ensures 0 <= RotateRightN(0, n) < FullTurn
    ensures RotateRightN(0, n) % Step == 0
  {
    RotateRightNClosedForm(0, n);
    var q := (15 * n) / 360;
    var s := (15 * n) % 360;
    ModUnique(s, 15, n - 24 * q, 0);
  }

  /** Twenty-four right presses make a full turn and come back to the start. */
  lemma FullTurnOfPresses(rotation: int, k: nat)
    requires 0 <= rotation < FullTurn && k == 24
    ensures RotateRightN(rotation, k) == rotation
  {
    RotateRightNClosedForm(rotation, k);
    ModUnique(rotation + 360, 360, 1, rotation);
  }
}
