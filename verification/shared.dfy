/**
 * What cube.js and hypercube.js have in common: the two-angle spin that their
 * update methods accumulate, and the two ways their constructors can fail.
 */
module Shared {

  /** JavaScript's Math.PI, the double nearest to pi, written out as a decimal. */
  const PI: real := 3.141592653589793

  datatype Option<T> = None | Some(value: T)

  /** Why a Cube constructor throws. */
  datatype InitError = MissingWebGLHandle | ShaderInitializationFailed

  datatype Result<T> = Success(value: T) | Failure(error: InitError)

  /**
   * The constructor's checks in order: a missing WebGL handle is reported
   * before shaders are built, and a failed link after.
   */
  function InitOutcome(hasGl: bool, shadersLinked: bool): (r: Option<InitError>)
    ensures r.None? <==> hasGl && shadersLinked
    ensures !hasGl ==> r == Some(MissingWebGLHandle)
    ensures hasGl && !shadersLinked ==> r == Some(ShaderInitializationFailed)
  {
    if !hasGl then Some(MissingWebGLHandle)
    else if !shadersLinked then Some(ShaderInitializationFailed)
    else None
  }

  /** The angles (in radians) about the X and Y axes that update accumulates. */
  datatype Spin = Spin(rotationX: real, rotationY: real)

  /**
   * update(deltaSeconds): the X angle grows by deltaSeconds * PI and the Y angle
   * by deltaSeconds * PI * 0.5, that is half a turn and a quarter turn per second.
   */
  function Advance(a: Spin, deltaSeconds: real): (r: Spin)
  {
    Spin(a.rotationX + deltaSeconds * PI, a.rotationY + deltaSeconds * PI * 0.5)
  }

  /** Two updates are one update by the summed time. */
  lemma AdvanceAdditive(a: Spin, d1: real, d2: real)
    ensures Advance(Advance(a, d1), d2) == Advance(a, d1 + d2)
  {
  }

  /** A zero time step changes nothing. */
  lemma AdvanceZero(a: Spin)
    ensures Advance(a, 0.0) == a
  {
  }

  /**
   * The Y angle always moves half as far as the X angle, and one second of
   * updates turns X by PI, half a turn, not the full turn the comments in
   * cube.js and hypercube.js mention.
   */
  lemma AdvanceRates(a: Spin, deltaSeconds: real)
    ensures var r := Advance(a, deltaSeconds);
      r.rotationX - a.rotationX == 2.0 * (r.rotationY - a.rotationY)
    ensures Advance(a, 1.0).rotationX == a.rotationX + PI
    ensures Advance(a, 1.0).rotationY == a.rotationY + PI / 2.0
  {
  }

  /**
   * Rows written one after another, as a JavaScript array literal lays out
   * one vertex or one colour per line.
   */
  function Flatten(rows: seq<seq<real>>): (flat: seq<real>)
  {
    if |rows| == 0 then [] else rows[0] + Flatten(rows[1..])
  }

  /** Rows of width w flatten to w times as many entries. */
  lemma {:induction false} FlattenLength(rows: seq<seq<real>>, w: nat)
    requires forall i :: 0 <= i < |rows| ==> |rows[i]| == w
    ensures |Flatten(rows)| == w * |rows|
  {
    if |rows| > 0 {
      FlattenLength(rows[1..], w);
      assert w * |rows| == w + w * (|rows| - 1);
    }
  }

  /** Entry j of row i sits at w * i + j of the flattened rows. */
  lemma {:induction false} FlattenAt(rows: seq<seq<real>>, w: nat, i: nat, j: nat)
    requires forall k :: 0 <= k < |rows| ==> |rows[k]| == w
    requires i < |rows| && j < w
    ensures w * i + j < |Flatten(rows)| && Flatten(rows)[w * i + j] == rows[i][j]
  {
    assert Flatten(rows) == rows[0] + Flatten(rows[1..]);
    if i > 0 {
      FlattenAt(rows[1..], w, i - 1, j);
      assert w * i + j == w + (w * (i - 1) + j);
    }
  }

  /** Every entry of the flattened rows is +1 or -1 when every entry of every row is. */
  lemma {:induction false} FlattenSigns(rows: seq<seq<real>>)
    requires forall i, j :: 0 <= i < |rows| && 0 <= j < |rows[i]| ==> rows[i][j] == 1.0 || rows[i][j] == -1.0
    ensures forall k :: 0 <= k < |Flatten(rows)| ==> Flatten(rows)[k] == 1.0 || Flatten(rows)[k] == -1.0
  {
    if |rows| > 0 {
      FlattenSigns(rows[1..]);
      assert Flatten(rows) == rows[0] + Flatten(rows[1..]);
    }
  }
}
