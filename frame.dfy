/** The per-slot work of the two per-frame sweeps, S_UpdateMovingSounds and
    Atmoky_UpdateSpatializers, as functions of the slot, the mixer and the
    game's view of the world; the sweeps themselves are methods of the sound
    system that apply these steps slot by slot. */
module Frame {
  import opened Options
  import opened Vectors
  import opened Mixer
  import opened Motion
  import opened Slots

  /** VALID_ENTITY. */
  predicate ValidEntity(n: int, maxEdicts: int) {
    0 < n < maxEdicts
  }

  /** What the game supplies each frame: cls.frametime, the local player's
      entity number cl.playernum + 1, MAX_EDICTS, and each entity's
      interpolated origin. */
  datatype World = World(frametime: real, playerEnt: int, maxEdicts: int, entityOrigin: int -> Vec3)

  /** Where an entity-following slot is this frame. */
  function FollowedOrigin(s: Slot, w: World): Vec3 {
    Add(w.entityOrigin(s.entnum), s.originOffset)
  }

  /** The offset S_StartSound records for a sound started at origin: relative
      to the entity it follows, or none for the local player and for sounds
      without a valid entity. */
  function StartOffset(entnum: int, origin: Vec3, w: World): Vec3 {
    if ValidEntity(entnum, w.maxEdicts) && entnum != w.playerEnt then Sub(origin, w.entityOrigin(entnum))
    else Zero
  }

  /** The slot S_StartSound fills in for a new voice h; it has no previous
      origin yet. */
  function StartedSlot(h: Channel, entnum: int, entchannel: int, sfx: nat, origin: Vec3, w: World): (s: Slot)
    ensures s.channel == Some(h) && s.spatializer.None? && s.sfx == Some(sfx) && !s.isStatic
    ensures s.entnum == entnum && s.entchannel == entchannel && Matches(s, entnum, entchannel)
    ensures s.origin == origin && s.prevOrigin == origin && !s.havePrevOrigin
  {
    Slot(Some(h), None, entnum, entchannel, Some(sfx), false, origin, origin, StartOffset(entnum, origin, w), false)
  }

  /** A sound started on an entity is, while the entity stays where it was, at
      the point where it was started: the offset undoes the entity's origin. */
  lemma StartedSlotFollowsEntity(h: Channel, entnum: int, entchannel: int, sfx: nat, origin: Vec3, w: World)
    requires ValidEntity(entnum, w.maxEdicts) && entnum != w.playerEnt
    ensures FollowedOrigin(StartedSlot(h, entnum, entchannel, sfx, origin, w), w) == origin
  {
  }

  /** The slot S_StaticSound fills in for a new looping voice h: with Atmoky it
      is placed at origin and counts as having been there, without Atmoky only
      the handle and the sound are set. */
  function StaticSlot(h: Channel, sfx: nat, origin: Vec3, atmoky: bool): (s: Slot)
    ensures s.channel == Some(h) && s.spatializer.None? && s.sfx == Some(sfx) && s.isStatic
    ensures s.entnum == 0 && s.entchannel == 0
    ensures atmoky ==> s.origin == origin && s.prevOrigin == origin && s.havePrevOrigin
    ensures !atmoky ==> s.origin == Zero && s.prevOrigin == Zero && !s.havePrevOrigin
  {
    if atmoky then Slot(Some(h), None, 0, 0, Some(sfx), true, origin, origin, Zero, true)
    else Slot(Some(h), None, 0, 0, Some(sfx), true, Zero, Zero, Zero, false)
  }

  /** The slot after one update: it is at cur, remembers cur as its previous
      origin, and has a previous origin. */
  function Advanced(s: Slot, cur: Vec3): (r: Slot)
    ensures r.channel == s.channel && r.spatializer == s.spatializer && r.sfx == s.sfx
    ensures r.origin == cur && r.prevOrigin == cur && r.havePrevOrigin
  {
    s.(origin := cur, prevOrigin := cur, havePrevOrigin := true)
  }

  /** A slot S_UpdateMovingSounds positions: occupied, without spatializer,
      playing, not static, following a valid entity that is not the local
      player. */
  predicate FollowsEntity(s: Slot, st: Status, w: World) {
    s.channel.Some? && s.spatializer.None? && ChannelIsPlaying(st, s.channel) && !s.isStatic
    && ValidEntity(s.entnum, w.maxEdicts) && s.entnum != w.playerEnt
  }

  /** The slot at which S_UpdateMovingSounds gives up for the frame: the mixer
      refuses to report the mode, or refuses the new 3D attributes of a 3D
      voice. */
  predicate MoveAborts(s: Slot, st: Status, w: World) {
    FollowsEntity(s, st, w)
    && (st[s.channel.value].getModeFails
        || (st[s.channel.value].is3D && st[s.channel.value].set3DFails))
  }

  /** The position and velocity pushed into the mixer for one voice. */
  datatype Push = Push(position: Vec3, velocity: Vec3)

  datatype MoveOutcome = MoveOutcome(slot: Slot, push: Option<Push>, abort: bool)

  /** One iteration of S_UpdateMovingSounds. */
  function MoveStep(s: Slot, st: Status, w: World, sqrt: real -> real): (o: MoveOutcome)
    requires IsSqrt(sqrt)
    ensures o.abort == MoveAborts(s, st, w)
    ensures SlotNarrows(s, o.slot) && o.slot.spatializer == s.spatializer && o.slot.sfx == s.sfx
    ensures o.slot.channel != s.channel ==> !ChannelIsPlaying(st, s.channel) && o.slot.channel.None?
    ensures s.spatializer.Some? ==> o.slot == s && o.push.None?
    ensures o.push.Some? ==>
              FollowsEntity(s, st, w) && st[s.channel.value].is3D
              && o.slot.origin == FollowedOrigin(s, w) && o.slot.prevOrigin == o.slot.origin
              && o.slot.havePrevOrigin
              && o.push.value.position == FollowedOrigin(s, w)
              && Dot(o.push.value.velocity, o.push.value.velocity) <= MaxSoundVelocityQu * MaxSoundVelocityQu
  {
    if s.channel.None? || s.spatializer.Some? then MoveOutcome(s, None, false)
    else if !ChannelIsPlaying(st, s.channel) then MoveOutcome(s.(channel := None), None, false)
    else if s.isStatic || !ValidEntity(s.entnum, w.maxEdicts) || s.entnum == w.playerEnt then
      MoveOutcome(s, None, false)
    else
      var v := st[s.channel.value];
      if v.getModeFails then MoveOutcome(s, None, true)
      else if !v.is3D then MoveOutcome(s, None, false)
      else
        var cur := FollowedOrigin(s, w);
        var vel := EstimateVelocity(s.havePrevOrigin, w.frametime, cur, s.prevOrigin, sqrt);
        SpeedBounded(s.havePrevOrigin, w.frametime, cur, s.prevOrigin, sqrt);
        MoveOutcome(Advanced(s, cur), if v.set3DFails then None else Some(Push(QVec(cur), QVec(vel))), v.set3DFails)
  }

  /** A slot left holding a finished channel without a spatializer: the moving
      sweep clears it. */
  predicate StaleUnspatialized(s: Slot, st: Status) {
    s.channel.Some? && s.spatializer.None? && !ChannelIsPlaying(st, s.channel)
  }

  /** After its step, no slot without a spatializer holds a finished channel,
      and the pushed velocity is the estimate for the slot's motion since its
      previous origin. */
  lemma MoveStepReapsAndEstimates(s: Slot, st: Status, w: World, sqrt: real -> real)
    requires IsSqrt(sqrt)
    ensures !StaleUnspatialized(MoveStep(s, st, w, sqrt).slot, st)
    ensures var o := MoveStep(s, st, w, sqrt);
            o.push.Some? ==> o.push.value.velocity
                             == EstimateVelocity(s.havePrevOrigin, w.frametime, FollowedOrigin(s, w), s.prevOrigin, sqrt)
  {
  }

  /** Sounds started by the local player or with no valid entity are never
      repositioned by the moving sweep. */
  lemma PlayerSoundsStayPut(s: Slot, st: Status, w: World, sqrt: real -> real)
    requires IsSqrt(sqrt)
    requires s.entnum == w.playerEnt || !ValidEntity(s.entnum, w.maxEdicts) || s.isStatic
    ensures var o := MoveStep(s, st, w, sqrt);
            o.push.None? && !o.abort && o.slot.origin == s.origin && o.slot.prevOrigin == s.prevOrigin
  {
  }

  /** The parameter block written into a spatializer for a source at cur
      moving with vel (both in Quake units), relative to listener. */
  function SpatialAttributes(cur: Vec3, vel: Vec3, listener: Listener): (a: DspAttributes)
    ensures a.absolute.position == QToAtmokyPosMeters(cur) && a.absolute.velocity == QToAtmokyVelMeters(vel)
    ensures a.absolute.forward == Vec3(0.0, 0.0, 1.0) && a.absolute.up == Vec3(0.0, 1.0, 0.0)
    ensures a.relative == ComputeRelative3DAttributes(a.absolute.position, a.absolute.velocity, listener)
  {
    var abs := Attributes3D(QToAtmokyPosMeters(cur), QToAtmokyVelMeters(vel),
                            Vec3(0.0, 0.0, 1.0), Vec3(0.0, 1.0, 0.0));
    DspAttributes(ComputeRelative3DAttributes(abs.position, abs.velocity, listener), abs)
  }

  datatype SpatialOutcome = SpatialOutcome(slot: Slot, write: Option<(Dsp, DspAttributes)>)

  /** Where a spatialized slot is this frame: a live entity's position plus the
      offset, or where it already is for static and entity-less sounds. */
  function SpatialOrigin(s: Slot, w: World): Vec3 {
    if !s.isStatic && ValidEntity(s.entnum, w.maxEdicts) then FollowedOrigin(s, w) else s.origin
  }

  /** One iteration of Atmoky_UpdateSpatializers. */
  function SpatialStep(s: Slot, st: Status, w: World, listener: Listener, sqrt: real -> real): (o: SpatialOutcome)
    requires IsSqrt(sqrt)
    ensures SlotNarrows(s, o.slot) && o.slot.sfx == s.sfx
    ensures s.channel.None? || s.spatializer.None? ==> o.slot == s && o.write.None?
    ensures s.channel.Some? && s.spatializer.Some? && !ChannelIsPlaying(st, s.channel) ==>
              o.slot == Freed(s) && o.write.None?
    ensures o.write.Some? ==>
              ChannelIsPlaying(st, s.channel) && s.spatializer == Some(o.write.value.0)
              && o.slot == Advanced(s, SpatialOrigin(s, w))
  {
    if s.channel.None? || s.spatializer.None? then SpatialOutcome(s, None)
    else if !ChannelIsPlaying(st, s.channel) then SpatialOutcome(Freed(s), None)
    else
      var cur := SpatialOrigin(s, w);
      var vel := EstimateVelocity(s.havePrevOrigin, w.frametime, cur, s.prevOrigin, sqrt);
      SpatialOutcome(Advanced(s, cur), Some((s.spatializer.value, SpatialAttributes(cur, vel, listener))))
  }

  /** A static spatialized sound that has been where it is since the last frame
      is written with zero velocity and its origin in meters. */
  lemma StaticSpatialIsStill(s: Slot, st: Status, w: World, listener: Listener, sqrt: real -> real)
    requires IsSqrt(sqrt)
    requires s.isStatic && s.prevOrigin == s.origin
    requires s.channel.Some? && s.spatializer.Some? && ChannelIsPlaying(st, s.channel)
    ensures var o := SpatialStep(s, st, w, listener, sqrt);
            o.write.Some? && o.write.value.1.absolute.velocity == Zero
            && o.write.value.1.absolute.position == QToAtmokyPosMeters(s.origin)
  {
    StillAfterUpdate(w.frametime, s.origin, sqrt);
    assert QToAtmokyVelMeters(Zero) == Zero;
  }
}
