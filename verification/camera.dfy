/**
 * The 4D half of the camera object that app.js builds and hands to render:
 * its position, target, up and over vectors, the view matrix lookAt4D makes
 * from them, and the 4D projection that hypercube render assigns later.
 */
module AppCamera {
  import opened GlMatrix
  import opened Math4D
  import opened Shared

  /** app.js places the 4D eye four units out along X ... */
  const Position4D: Vec4 := Vec(4.0, 0.0, 0.0, 0.0)
  /** ... looking at the origin ... */
  const Target4D: Vec4 := Vec(0.0, 0.0, 0.0, 0.0)
  /** ... with Y as up ... */
  const Up4D: Vec4 := Vec(0.0, 1.0, 0.0, 0.0)
  /** ... and Z as over. */
  const Over4D: Vec4 := Vec(0.0, 0.0, 1.0, 0.0)

  /** Wd: target - position = (-4, 0, 0, 0), brought to unit length by the factor 1/4. */
  lemma ViewDirection()
    ensures Normalizes(0.25, Sub(Target4D, Position4D))
    ensures Normalize(Sub(Target4D, Position4D), 0.25) == Vec(-1.0, 0.0, 0.0, 0.0)
  {
    assert Sub(Target4D, Position4D) == Vec(-4.0, 0.0, 0.0, 0.0);
  }

  /** Wa: the cross product of up, over and Wd is e3, already of unit length. */
  lemma ViewAxisA()
    ensures Cross4D(Up4D, Over4D, Vec(-1.0, 0.0, 0.0, 0.0)) == Vec(0.0, 0.0, 0.0, 1.0)
    ensures Normalizes(1.0, Vec(0.0, 0.0, 0.0, 1.0))
    ensures Normalize(Vec(0.0, 0.0, 0.0, 1.0), 1.0) == Vec(0.0, 0.0, 0.0, 1.0)
  {
    NormalizeUnit(Vec(0.0, 0.0, 0.0, 1.0));
  }

  /** Wb: the cross product of over, Wd and Wa is -e1, already of unit length. */
  lemma ViewAxisB()
    ensures Cross4D(Over4D, Vec(-1.0, 0.0, 0.0, 0.0), Vec(0.0, 0.0, 0.0, 1.0)) == Vec(0.0, -1.0, 0.0, 0.0)
    ensures Normalizes(1.0, Vec(0.0, -1.0, 0.0, 0.0))
    ensures Normalize(Vec(0.0, -1.0, 0.0, 0.0), 1.0) == Vec(0.0, -1.0, 0.0, 0.0)
  {
    NormalizeUnit(Vec(0.0, -1.0, 0.0, 0.0));
  }

  /** Wc: the cross product of Wd, Wa and Wb is -e2. */
  lemma ViewAxisC()
    ensures Cross4D(Vec(-1.0, 0.0, 0.0, 0.0), Vec(0.0, 0.0, 0.0, 1.0), Vec(0.0, -1.0, 0.0, 0.0)) == Vec(0.0, 0.0, -1.0, 0.0)
  {
  }

  /** The app camera meets lookAt4D's requirement that every vector it normalises is nonzero. */
  lemma AppCameraScales()
    ensures LookAtScales(Position4D, Target4D, Up4D, Over4D, 0.25, 1.0, 1.0)
  {
    ViewDirection();
    ViewAxisA();
    ViewAxisB();
  }

  /** The basis lookAt4D computes for the app camera: Wa = e3, Wb = -e1, Wc = -e2, Wd = -e0. */
  lemma AppCameraBasis()
    ensures LookAtScales(Position4D, Target4D, Up4D, Over4D, 0.25, 1.0, 1.0)
    ensures LookAt4DBasis(Position4D, Target4D, Up4D, Over4D, 0.25, 1.0, 1.0)
         == Basis4D(Vec(0.0, 0.0, 0.0, 1.0), Vec(0.0, -1.0, 0.0, 0.0), Vec(0.0, 0.0, -1.0, 0.0), Vec(-1.0, 0.0, 0.0, 0.0))
  {
    AppCameraScales();
    ViewDirection();
    ViewAxisA();
    ViewAxisB();
    ViewAxisC();
  }

  /** The 4D view matrix of the app camera, written out. */
  const AppView4D: Mat4 := [0.0, 0.0, 0.0, 1.0,
                            0.0, -1.0, 0.0, 0.0,
                            0.0, 0.0, -1.0, 0.0,
                            -1.0, 0.0, 0.0, 0.0]

  /** lookAt4D on the app camera yields the columns e3, -e1, -e2 and -e0. */
  lemma AppCameraView4D()
    ensures LookAtScales(Position4D, Target4D, Up4D, Over4D, 0.25, 1.0, 1.0)
    ensures LookAt4D(Position4D, Target4D, Up4D, Over4D, 0.25, 1.0, 1.0) == AppView4D
  {
    AppCameraBasis();
    var f := Basis4D(Vec(0.0, 0.0, 0.0, 1.0), Vec(0.0, -1.0, 0.0, 0.0), Vec(0.0, 0.0, -1.0, 0.0), Vec(-1.0, 0.0, 0.0, 0.0));
    LookAt4DFromBasis(Position4D, Target4D, Up4D, Over4D, 0.25, 1.0, 1.0, f);
    AppViewColumns();
  }

  /** The columns listed one after the other. */
  lemma AppViewColumns()
    ensures FromColumns(Vec(0.0, 0.0, 0.0, 1.0), Vec(0.0, -1.0, 0.0, 0.0), Vec(0.0, 0.0, -1.0, 0.0), Vec(-1.0, 0.0, 0.0, 0.0))
         == [0.0, 0.0, 0.0, 1.0,
             0.0, -1.0, 0.0, 0.0,
             0.0, 0.0, -1.0, 0.0,
             -1.0, 0.0, 0.0, 0.0]
  {
  }

  /**
   * The camera object of app.js, 4D fields only. `projection4D` is absent
   * until the hypercube's render assigns it, hence the Option.
   */
  class Camera {
    var position4D: Vec4
    var target4D: Vec4
    var up4D: Vec4
    var over4D: Vec4
    var view4D: Mat4
    var projection4D: Option<Mat4>

    /**
     * The App constructor's set-up: the four vectors above, then lookAt4D
     * into view4D, whose value AppCameraView4D computes.
     */
    constructor()
      ensures position4D == Position4D && target4D == Target4D && up4D == Up4D && over4D == Over4D
      ensures view4D == AppView4D
      ensures projection4D.None?
    {
      position4D, target4D, up4D, over4D := Position4D, Target4D, Up4D, Over4D;
      view4D := AppView4D;
      projection4D := None;
    }
  }

  /**
   * Although lookAt4D never normalises Wc, the app camera's view matrix is a
   * signed permutation of the axes and so orthogonal.
   */
  lemma AppViewOrthogonal()
    ensures IsOrthogonal(AppView4D)
  {
    AppViewColumns();
    OrthonormalVectorsOrthogonal(Vec(0.0, 0.0, 0.0, 1.0), Vec(0.0, -1.0, 0.0, 0.0), Vec(0.0, 0.0, -1.0, 0.0), Vec(-1.0, 0.0, 0.0, 0.0));
  }
}
