/** Real-vector algebra used by the sound layer: the FMOD vector helpers,
    the Quake-to-Atmoky axis and unit conversions, and the projection of a
    world-space position onto the listener's basis. All arithmetic is over
    `real`; single-precision rounding is not modelled. */
module Vectors {

  datatype Vec3 = Vec3(x: real, y: real, z: real)

  const Zero: Vec3 := Vec3(0.0, 0.0, 0.0)

  /** Quake units per metre (QU_PER_METER). */
  const QuPerMeter: real := 39.37

  function Add(a: Vec3, b: Vec3): Vec3 {
    Vec3(a.x + b.x, a.y + b.y, a.z + b.z)
  }

  /** FMOD_VecSub; also Quake's VectorSubtract. */
  function Sub(a: Vec3, b: Vec3): Vec3 {
    Vec3(a.x - b.x, a.y - b.y, a.z - b.z)
  }

  /** VectorScale. */
  function Scale(v: Vec3, k: real): Vec3 {
    Vec3(k * v.x, k * v.y, k * v.z)
  }

  /** FMOD_Dot; also Quake's DotProduct. */
  function Dot(a: Vec3, b: Vec3): real {
    a.x * b.x + a.y * b.y + a.z * b.z
  }

  /** FMOD_Cross. */
  function Cross(a: Vec3, b: Vec3): Vec3 {
    Vec3(a.y * b.z - a.z * b.y, a.z * b.x - a.x * b.z, a.x * b.y - a.y * b.x)
  }

  /** QVec: a Quake vec3_t read as an FMOD_VECTOR, component for component. */
  function QVec(v: Vec3): Vec3 {
    Vec3(v.x, v.y, v.z)
  }

  /** QToAtmokyDir: Quake (x forward, y left, z up) to Atmoky
      (x right, y up, z forward). */
  function QToAtmokyDir(q: Vec3): Vec3 {
    Vec3(-q.y, q.z, q.x)
  }

  /** QToAtmokyPosMeters: the same axis map, scaled from Quake units to metres. */
  function QToAtmokyPosMeters(q: Vec3): Vec3 {
    var quToM := 1.0 / QuPerMeter;
    Vec3(-q.y * quToM, q.z * quToM, q.x * quToM)
  }

  /** QToAtmokyVelMeters: identical arithmetic to the position conversion. */
  function QToAtmokyVelMeters(q: Vec3): Vec3 {
    var quToM := 1.0 / QuPerMeter;
    Vec3(-q.y * quToM, q.z * quToM, q.x * quToM)
  }

  /** The inverse axis map, Atmoky back to Quake; the partner of QToAtmokyDir. */
  function AtmokyDirToQ(a: Vec3): Vec3 {
    Vec3(a.z, -a.x, a.y)
  }

  /** FMOD_3D_ATTRIBUTES (position, velocity, forward, up). */
  datatype Attributes3D = Attributes3D(position: Vec3, velocity: Vec3, forward: Vec3, up: Vec3)

  /** listener_atmoky together with listener_atmoky_right. */
  datatype Listener = Listener(attrs: Attributes3D, right: Vec3)

  ghost predicate Unit(v: Vec3) { Dot(v, v) == 1.0 }

  /** The listener's right/up/forward triple is an orthonormal basis. */
  ghost predicate Orthonormal(l: Listener) {
    Unit(l.right) && Unit(l.attrs.up) && Unit(l.attrs.forward)
    && Dot(l.right, l.attrs.up) == 0.0 && Dot(l.right, l.attrs.forward) == 0.0
    && Dot(l.attrs.up, l.attrs.forward) == 0.0
  }

  /** The coordinates of v in the listener's (right, up, forward) basis. */
  function Project(v: Vec3, l: Listener): Vec3 {
    Vec3(Dot(v, l.right), Dot(v, l.attrs.up), Dot(v, l.attrs.forward))
  }

  /** ComputeRelative3DAttributes: position and velocity relative to the
      listener, expressed in the listener's basis; a fixed forward/up frame. */
  function ComputeRelative3DAttributes(absPos: Vec3, absVel: Vec3, l: Listener): (r: Attributes3D)
    ensures r.forward == Vec3(0.0, 0.0, 1.0) && r.up == Vec3(0.0, 1.0, 0.0)
    ensures r.position == Project(Sub(absPos, l.attrs.position), l)
    ensures r.velocity == Project(Sub(absVel, l.attrs.velocity), l)
  {
    var delta := Sub(absPos, l.attrs.position);
    var vdelta := Sub(absVel, l.attrs.velocity);
    Attributes3D(
      Vec3(Dot(delta, l.right), Dot(delta, l.attrs.up), Dot(delta, l.attrs.forward)),
      Vec3(Dot(vdelta, l.right), Dot(vdelta, l.attrs.up), Dot(vdelta, l.attrs.forward)),
      Vec3(0.0, 0.0, 1.0),
      Vec3(0.0, 1.0, 0.0))
  }

  /** Combination a*r + b*u + c*f of three basis vectors. */
  function Combine(a: real, b: real, c: real, r: Vec3, u: Vec3, f: Vec3): Vec3 {
    Add(Add(Scale(r, a), Scale(u, b)), Scale(f, c))
  }

  lemma DotCombine(a: real, b: real, c: real, r: Vec3, u: Vec3, f: Vec3, w: Vec3)
    ensures Dot(Combine(a, b, c, r, u, f), w) == a * Dot(r, w) + b * Dot(u, w) + c * Dot(f, w)
  {
    var v := Combine(a, b, c, r, u, f);
    assert v.x == a * r.x + b * u.x + c * f.x;
    assert v.y == a * r.y + b * u.y + c * f.y;
    assert v.z == a * r.z + b * u.z + c * f.z;
    calc {
      Dot(v, w);
      (a * r.x + b * u.x + c * f.x) * w.x + (a * r.y + b * u.y + c * f.y) * w.y
        + (a * r.z + b * u.z + c * f.z) * w.z;
      a * (r.x * w.x + r.y * w.y + r.z * w.z) + b * (u.x * w.x + u.y * w.y + u.z * w.z)
        + c * (f.x * w.x + f.y * w.y + f.z * w.z);
    }
  }

  /** Projection is the inverse of building a point from its listener-relative
      coordinates: for an orthonormal listener basis, the relative position of
      listener + a*right + b*up + c*forward is exactly (a, b, c). */
  lemma RelativeRecoversCoordinates(a: real, b: real, c: real, l: Listener)
    requires Orthonormal(l)
    ensures ComputeRelative3DAttributes(
              Add(l.attrs.position, Combine(a, b, c, l.right, l.attrs.up, l.attrs.forward)),
              l.attrs.velocity, l).position == Vec3(a, b, c)
  {
    var r, u, f := l.right, l.attrs.up, l.attrs.forward;
    var v := Combine(a, b, c, r, u, f);
    var p := Add(l.attrs.position, v);
    assert Sub(p, l.attrs.position) == v;
    DotCombine(a, b, c, r, u, f, r);
    DotCombine(a, b, c, r, u, f, u);
    DotCombine(a, b, c, r, u, f, f);
    assert Dot(u, r) == 0.0 && Dot(f, r) == 0.0 && Dot(f, u) == 0.0;
  }

  /** A source at the listener's own position and velocity has zero relative
      position and velocity, whatever the basis. */
  lemma RelativeAtListenerIsZero(l: Listener)
    ensures ComputeRelative3DAttributes(l.attrs.position, l.attrs.velocity, l).position == Zero
    ensures ComputeRelative3DAttributes(l.attrs.position, l.attrs.velocity, l).velocity == Zero
  {
  }

  /** FMOD_Cross(up, forward) is perpendicular to both of its arguments. */
  lemma CrossPerpendicular(a: Vec3, b: Vec3)
    ensures Dot(Cross(a, b), a) == 0.0 && Dot(Cross(a, b), b) == 0.0
  {
    var c := Cross(a, b);
    calc {
      Dot(c, a);
      (a.y * b.z - a.z * b.y) * a.x + (a.z * b.x - a.x * b.z) * a.y + (a.x * b.y - a.y * b.x) * a.z;
      a.x * a.y * b.z - a.x * a.z * b.y + a.y * a.z * b.x - a.x * a.y * b.z + a.x * a.z * b.y - a.y * a.z * b.x;
      0.0;
    }
    calc {
      Dot(c, b);
      (a.y * b.z - a.z * b.y) * b.x + (a.z * b.x - a.x * b.z) * b.y + (a.x * b.y - a.y * b.x) * b.z;
      a.y * b.x * b.z - a.z * b.x * b.y + a.z * b.x * b.y - a.x * b.y * b.z + a.x * b.y * b.z - a.y * b.x * b.z;
      0.0;
    }
  }

  /** Lagrange's identity |a x b|^2 = |a|^2 |b|^2 - (a . b)^2. */
  lemma Lagrange(a: Vec3, b: Vec3)
    ensures Dot(Cross(a, b), Cross(a, b)) == Dot(a, a) * Dot(b, b) - Dot(a, b) * Dot(a, b)
  {
    var c := Cross(a, b);
    var p, q, s := a.y * b.z - a.z * b.y, a.z * b.x - a.x * b.z, a.x * b.y - a.y * b.x;
    assert c == Vec3(p, q, s);
    assert p * p == a.y * a.y * b.z * b.z - 2.0 * (a.y * b.z) * (a.z * b.y) + a.z * a.z * b.y * b.y;
    assert q * q == a.z * a.z * b.x * b.x - 2.0 * (a.z * b.x) * (a.x * b.z) + a.x * a.x * b.z * b.z;
    assert s * s == a.x * a.x * b.y * b.y - 2.0 * (a.x * b.y) * (a.y * b.x) + a.y * a.y * b.x * b.x;
    var d := a.x * b.x + a.y * b.y + a.z * b.z;
    assert d * d == a.x * a.x * b.x * b.x + a.y * a.y * b.y * b.y + a.z * a.z * b.z * b.z
      + 2.0 * (a.x * b.x) * (a.y * b.y) + 2.0 * (a.x * b.x) * (a.z * b.z) + 2.0 * (a.y * b.y) * (a.z * b.z);
    var na := a.x * a.x + a.y * a.y + a.z * a.z;
    var nb := b.x * b.x + b.y * b.y + b.z * b.z;
    assert na * nb == a.x * a.x * b.x * b.x + a.x * a.x * b.y * b.y + a.x * a.x * b.z * b.z
      + a.y * a.y * b.x * b.x + a.y * a.y * b.y * b.y + a.y * a.y * b.z * b.z
      + a.z * a.z * b.x * b.x + a.z * a.z * b.y * b.y + a.z * a.z * b.z * b.z;
  }

  /** The listener set-up of the sound update derives right as
      FMOD_Cross(up, forward); when up and forward are orthonormal, the
      resulting triple is an orthonormal basis. */
  lemma RightCompletesBasis(l: Listener)
    requires Unit(l.attrs.up) && Unit(l.attrs.forward) && Dot(l.attrs.up, l.attrs.forward) == 0.0
    requires l.right == Cross(l.attrs.up, l.attrs.forward)
    ensures Orthonormal(l)
  {
    CrossPerpendicular(l.attrs.up, l.attrs.forward);
    Lagrange(l.attrs.up, l.attrs.forward);
  }

  /** The Atmoky axis map is an isometry: it preserves dot products. */
  lemma AtmokyDirPreservesDot(a: Vec3, b: Vec3)
    ensures Dot(QToAtmokyDir(a), QToAtmokyDir(b)) == Dot(a, b)
  {
  }

  /** The axis map flips handedness (determinant -1): it carries a Quake
      cross product to the negated Atmoky cross product. */
  lemma AtmokyDirFlipsHandedness(a: Vec3, b: Vec3)
    ensures QToAtmokyDir(Cross(a, b)) == Scale(Cross(QToAtmokyDir(a), QToAtmokyDir(b)), -1.0)
  {
  }

  /** AtmokyDirToQ undoes QToAtmokyDir, and conversely. */
  lemma AtmokyDirRoundTrip(q: Vec3, a: Vec3)
    ensures AtmokyDirToQ(QToAtmokyDir(q)) == q
    ensures QToAtmokyDir(AtmokyDirToQ(a)) == a
  {
  }

  /** Position and velocity conversions are the direction map followed by the
      change of unit from Quake units to metres. */
  lemma MetersIsScaledDir(q: Vec3)
    ensures QToAtmokyPosMeters(q) == Scale(QToAtmokyDir(q), 1.0 / QuPerMeter)
    ensures QToAtmokyVelMeters(q) == QToAtmokyPosMeters(q)
  {
  }
}
