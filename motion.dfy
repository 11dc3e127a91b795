/** The pure arithmetic of the per-frame update: velocity estimation with
    teleport detection and speed clamping, the ambient fade step, and the
    3D distance ranges chosen when a sound starts. */
module Motion {
  import opened Vectors

  /** TELEPORT_DIST_QU: a per-frame displacement longer than this is a teleport. */
  const TeleportDistQu: real := 1000.0
  /** MAX_SOUND_VELOCITY_QU: the speed a source velocity is clamped to. */
  const MaxSoundVelocityQu: real := 3000.0
  /** MIN_3D_DIST, NOMINAL_CLIP_DIST and STATIC_ATTEN_DIV. */
  const Min3DDist: real := 80.0
  const NominalClipDist: real := 1000.0
  const StaticAttenDiv: real := 64.0
  /** The "essentially infinite" range of an unattenuated static sound. */
  const UnattenuatedStaticDist: real := 100000.0
  /** An ambient target below this is inaudible and snaps to 0. */
  const AmbientSnap: real := 8.0

  /** sqrtf, uninterpreted: any function that is a square root on x >= 0. */
  ghost predicate IsSqrt(sqrt: real -> real) {
    forall x :: 0.0 <= x ==> 0.0 <= sqrt(x) && sqrt(x) * sqrt(x) == x
  }

  /** The velocity both update loops compute for a slot moving from prev to cur
      in one frame of length frametime. */
  function EstimateVelocity(havePrev: bool, frametime: real, cur: Vec3, prev: Vec3,
                            sqrt: real -> real): Vec3
    requires IsSqrt(sqrt)
  {
    if havePrev && frametime > 0.0 then
      var move := Sub(cur, prev);
      if Dot(move, move) > TeleportDistQu * TeleportDistQu then Zero
      else
        var vel := Scale(move, 1.0 / frametime);
        var speedSq := Dot(vel, vel);
        if speedSq > MaxSoundVelocityQu * MaxSoundVelocityQu then
          RootPositive(sqrt, speedSq);
          Scale(vel, MaxSoundVelocityQu / sqrt(speedSq))
        else vel
    else Zero
  }

  /** The root of a positive square is positive; EstimateVelocity and
      FastIsClamped divide by it. */
  lemma RootPositive(sqrt: real -> real, s: real)
    requires IsSqrt(sqrt) && s > 0.0
    ensures sqrt(s) > 0.0
  {
    assert 0.0 <= sqrt(s) && sqrt(s) * sqrt(s) == s;
  }

  /** With no previous origin, or no elapsed time, the velocity is zero. */
  lemma NoHistoryMeansStill(havePrev: bool, frametime: real, cur: Vec3, prev: Vec3,
                            sqrt: real -> real)
    requires IsSqrt(sqrt)
    requires !havePrev || frametime <= 0.0
    ensures EstimateVelocity(havePrev, frametime, cur, prev, sqrt) == Zero
  {
  }

  /** A displacement longer than the teleport distance yields zero velocity. */
  lemma TeleportMeansStill(frametime: real, cur: Vec3, prev: Vec3, sqrt: real -> real)
    requires IsSqrt(sqrt)
    requires Dot(Sub(cur, prev), Sub(cur, prev)) > TeleportDistQu * TeleportDistQu
    ensures EstimateVelocity(true, frametime, cur, prev, sqrt) == Zero
  {
  }

  /** Below the speed limit the velocity is the displacement over the frame time. */
  lemma SlowMeansFiniteDifference(frametime: real, cur: Vec3, prev: Vec3, sqrt: real -> real)
    requires IsSqrt(sqrt) && frametime > 0.0
    requires Dot(Sub(cur, prev), Sub(cur, prev)) <= TeleportDistQu * TeleportDistQu
    requires Dot(Scale(Sub(cur, prev), 1.0 / frametime), Scale(Sub(cur, prev), 1.0 / frametime))
             <= MaxSoundVelocityQu * MaxSoundVelocityQu
    ensures EstimateVelocity(true, frametime, cur, prev, sqrt) == Scale(Sub(cur, prev), 1.0 / frametime)
  {
  }

  /** Scaling a vector scales its squared length by the square; used by
      ClampedLength and ClampedDirection. */
  lemma DotScale(v: Vec3, k: real)
    ensures Dot(Scale(v, k), Scale(v, k)) == k * k * Dot(v, v)
  {
    calc {
      Dot(Scale(v, k), Scale(v, k));
      (k * v.x) * (k * v.x) + (k * v.y) * (k * v.y) + (k * v.z) * (k * v.z);
      k * k * (v.x * v.x + v.y * v.y + v.z * v.z);
    }
  }

  /** Squaring is monotone on non-negative reals; used by FastIsClamped. */
  lemma SquareMonotone(a: real, b: real)
    requires 0.0 <= a <= b
    ensures a * a <= b * b
  {
    assert a * a <= a * b;
    assert a * b <= b * b;
  }

  /** Scaling raw by MAX_SOUND_VELOCITY_QU over its length r, when r is above
      the limit, gives a vector of exactly the limit's length. */
  lemma ClampedLength(raw: Vec3, r: real)
    requires r > MaxSoundVelocityQu && r * r == Dot(raw, raw)
    ensures var v := Scale(raw, MaxSoundVelocityQu / r); Dot(v, v) == MaxSoundVelocityQu * MaxSoundVelocityQu
  {
    var k := MaxSoundVelocityQu / r;
    DotScale(raw, k);
    assert k * r == MaxSoundVelocityQu;
    calc {
      k * k * Dot(raw, raw);
      k * k * (r * r);
      (k * r) * (k * r);
    }
  }

  /** ... and keeps raw's direction, shrinking it. */
  lemma ClampedDirection(raw: Vec3, r: real)
    requires r > MaxSoundVelocityQu && r * r == Dot(raw, raw)
    ensures var v := Scale(raw, MaxSoundVelocityQu / r);
            Cross(v, raw) == Zero && Dot(v, raw) > 0.0 && Dot(v, v) < Dot(raw, raw)
  {
    var s := Dot(raw, raw);
    var k := MaxSoundVelocityQu / r;
    var v := Scale(raw, k);
    assert 0.0 < k < 1.0 by {
      assert k * r == MaxSoundVelocityQu < r;
    }
    assert s > 0.0 by {
      assert r * r > MaxSoundVelocityQu * r > MaxSoundVelocityQu * MaxSoundVelocityQu;
    }
    assert Cross(v, raw) == Zero;
    assert Dot(v, raw) == k * s;
    DotScale(raw, k);
    assert k * k * s < s by {
      assert k * k < 1.0 by { assert k * k < k * 1.0; }
    }
  }

  /** Above the speed limit the velocity keeps the direction of the finite
      difference (a positive multiple of it, by a factor below 1) and its
      speed is exactly MAX_SOUND_VELOCITY_QU. */
  lemma FastIsClamped(frametime: real, cur: Vec3, prev: Vec3, sqrt: real -> real)
    requires IsSqrt(sqrt) && frametime > 0.0
    requires Dot(Sub(cur, prev), Sub(cur, prev)) <= TeleportDistQu * TeleportDistQu
    requires Dot(Scale(Sub(cur, prev), 1.0 / frametime), Scale(Sub(cur, prev), 1.0 / frametime))
             > MaxSoundVelocityQu * MaxSoundVelocityQu
    ensures var v := EstimateVelocity(true, frametime, cur, prev, sqrt);
            Dot(v, v) == MaxSoundVelocityQu * MaxSoundVelocityQu
            && var raw := Scale(Sub(cur, prev), 1.0 / frametime);
               Cross(v, raw) == Zero && Dot(v, raw) > 0.0 && Dot(v, v) < Dot(raw, raw)
  {
    var raw := Scale(Sub(cur, prev), 1.0 / frametime);
    var s := Dot(raw, raw);
    var r := sqrt(s);
    RootPositive(sqrt, s);
    assert r * r == s;
    if r <= MaxSoundVelocityQu {
      SquareMonotone(r, MaxSoundVelocityQu);
      assert false;
    }
    assert Scale(raw, MaxSoundVelocityQu / r) == EstimateVelocity(true, frametime, cur, prev, sqrt);
    ClampedLength(raw, r);
    ClampedDirection(raw, r);
  }

  /** Whatever the input, the estimated speed never exceeds the limit. */
  lemma SpeedBounded(havePrev: bool, frametime: real, cur: Vec3, prev: Vec3, sqrt: real -> real)
    requires IsSqrt(sqrt)
    ensures var v := EstimateVelocity(havePrev, frametime, cur, prev, sqrt);
            Dot(v, v) <= MaxSoundVelocityQu * MaxSoundVelocityQu
  {
    if havePrev && frametime > 0.0 {
      var move := Sub(cur, prev);
      if Dot(move, move) <= TeleportDistQu * TeleportDistQu {
        var raw := Scale(move, 1.0 / frametime);
        if Dot(raw, raw) > MaxSoundVelocityQu * MaxSoundVelocityQu {
          FastIsClamped(frametime, cur, prev, sqrt);
        }
      }
    }
  }

  /** The frame after any update starts from prev == cur, so a source that has
      not moved again has zero velocity: a teleport leaves no velocity spike
      for the next frame, even though the flag that was meant to suppress it
      is set back to true. */
  lemma StillAfterUpdate(frametime: real, cur: Vec3, sqrt: real -> real)
    requires IsSqrt(sqrt)
    ensures EstimateVelocity(true, frametime, cur, cur, sqrt) == Zero
  {
    if frametime > 0.0 {
      assert Sub(cur, cur) == Zero;
      assert Scale(Zero, 1.0 / frametime) == Zero;
    }
  }

  /** The target volume of one ambient: level times the leaf's ambient level,
      snapped to 0 below the audibility threshold. */
  function AmbientTarget(level: real, leafLevel: real): (t: real)
    ensures level * leafLevel >= AmbientSnap ==> t == level * leafLevel
    ensures level * leafLevel < AmbientSnap ==> t == 0.0
  {
    var target := level * leafLevel;
    if target < AmbientSnap then 0.0 else target
  }

  /** One frame of the ambient fader: move vol towards target by step,
      clamping at the target. */
  function FadeStep(vol: real, target: real, step: real): real {
    if vol < target then
      var v := vol + step;
      if v > target then target else v
    else if vol > target then
      var v := vol - step;
      if v < target then target else v
    else vol
  }

  function Min(a: real, b: real): real { if a <= b then a else b }
  function Max(a: real, b: real): real { if a <= b then b else a }

  /** Fading up is min(T, V + step); fading down is max(T, V - step). */
  lemma FadeStepIsClampedMove(vol: real, target: real, step: real)
    requires step >= 0.0
    ensures vol < target ==> FadeStep(vol, target, step) == Min(target, vol + step)
    ensures vol > target ==> FadeStep(vol, target, step) == Max(target, vol - step)
    ensures vol == target ==> FadeStep(vol, target, step) == vol
  {
  }

  /** The new volume lies between the old volume and the target, has moved by at
      most step, and reaches the target exactly when it is within step. */
  lemma FadeStepNoOvershoot(vol: real, target: real, step: real)
    requires step >= 0.0
    ensures var v := FadeStep(vol, target, step);
            Min(vol, target) <= v <= Max(vol, target)
            && -step <= v - vol <= step
            && (v == target <==> (vol - target <= step && target - vol <= step))
  {
  }

  /** The range of a started sound: NOMINAL_CLIP_DIST / attenuation, but at least
      just beyond MIN_3D_DIST. */
  function MaxDistance(attenuation: real): (d: real)
    requires attenuation > 0.0
    ensures d > Min3DDist || d == NominalClipDist / attenuation
    ensures NominalClipDist / attenuation < Min3DDist ==> d == Min3DDist + 1.0
    ensures NominalClipDist / attenuation >= Min3DDist ==> d == NominalClipDist / attenuation
  {
    var maxDist := NominalClipDist / attenuation;
    if maxDist < Min3DDist then Min3DDist + 1.0 else maxDist
  }

  /** The range of a static sound, STATIC_ATTEN_DIV times wider, or
      essentially infinite without attenuation. */
  function StaticMaxDistance(attenuation: real): (d: real)
  {
    if attenuation > 0.0 then
      var maxDist := (NominalClipDist * StaticAttenDiv) / attenuation;
      if maxDist < Min3DDist then Min3DDist + 1.0 else maxDist
    else UnattenuatedStaticDist
  }

  /** The range never starts inside the minimum distance, and is the nominal
      one whenever that is already far enough. */
  lemma MaxDistanceAtLeastMin(attenuation: real)
    requires attenuation > 0.0
    ensures MaxDistance(attenuation) >= Min3DDist
    ensures NominalClipDist / attenuation >= Min3DDist ==> MaxDistance(attenuation) == NominalClipDist / attenuation
    ensures StaticMaxDistance(attenuation) >= Min3DDist
  {
  }

  /** A static sound has the range a started sound would have at
      attenuation / STATIC_ATTEN_DIV, and 100000 without attenuation. */
  lemma StaticRangeIsScaled(attenuation: real)
    ensures attenuation <= 0.0 ==> StaticMaxDistance(attenuation) == UnattenuatedStaticDist
    ensures attenuation > 0.0 ==> StaticMaxDistance(attenuation) == MaxDistance(attenuation / StaticAttenDiv)
  {
    if attenuation > 0.0 {
      assert NominalClipDist / (attenuation / StaticAttenDiv) == (NominalClipDist * StaticAttenDiv) / attenuation;
    }
  }
}
