module Options {
  datatype Option<+T> = None | Some(value: T)

  datatype Result<+R, +E> = Success(value: R) | Failure(error: E)
}

/** The FMOD mixer as the sound layer sees it: an abstract map from channel
    handle to the state of the voice behind it. Only the queries and setters the
    bookkeeping layer uses are modelled; mixing itself is not. */
module Mixer {
  import opened Options
  import opened Vectors

  datatype Channel = Channel(id: nat)
  datatype Dsp = Dsp(id: nat)
  datatype SoundObj = SoundObj(id: nat)

  /** What the mixer knows of one channel. The two failure flags say that the
      mixer answers FMOD_Channel_GetMode, or FMOD_Channel_Set3DAttributes, with
      an error for this channel; those are the only per-channel errors that
      change the layer's control flow. */
  datatype Voice = Voice(
    playing: bool, isVirtual: bool, is3D: bool, looping: bool,
    getModeFails: bool, set3DFails: bool,
    position: Vec3, velocity: Vec3, minDist: real, maxDist: real, volume: real)

  type Status = map<Channel, Voice>

  /** FMOD_System_PlaySound: a new voice, paused but playing, in the mode its
      sound was created with, at FMOD's default range and full volume. */
  function PlayedVoice(is3D: bool): (v: Voice)
    ensures v.playing && !v.isVirtual && v.is3D == is3D && !v.looping
  {
    Voice(true, false, is3D, false, false, false, Zero, Zero, 80.0, 1000.0, 1.0)
  }

  /** ChannelIsPlaying: a null or unknown handle, or one the mixer reports
      as finished, is not playing. */
  predicate ChannelIsPlaying(st: Status, ch: Option<Channel>) {
    ch.Some? && ch.value in st && st[ch.value].playing
  }

  /** ChannelIsVirtual: a null or unknown handle is not virtual. */
  predicate ChannelIsVirtual(st: Status, ch: Option<Channel>) {
    ch.Some? && ch.value in st && st[ch.value].isVirtual
  }

  function Stopped(v: Voice): Voice {
    v.(playing := false, isVirtual := false)
  }

  /** What FMOD_System_Update may do to the voices between two calls into the
      layer: a playing voice may end, become virtual or real again, or start
      refusing GetMode or Set3DAttributes. A finished voice stays finished and
      is not virtual, no handle is issued or forgotten, and nothing else
      about a voice changes. */
  predicate Advances(st: Status, st': Status) {
    st'.Keys == st.Keys
    && (forall h :: h in st && !st[h].playing ==> st'[h] == st[h])
    && (forall h :: h in st' && !st'[h].playing ==> !st'[h].isVirtual)
    && (forall h :: h in st ==>
          st'[h] == st[h].(playing := st'[h].playing, isVirtual := st'[h].isVirtual,
                           getModeFails := st'[h].getModeFails, set3DFails := st'[h].set3DFails))
  }

  /** The mixer may leave every voice alone, end a playing voice, make it
      virtual, or make it refuse GetMode and Set3DAttributes; and what it does
      over two updates it may do in one. */
  lemma AdvancesMoves(st: Status, h: Channel)
    requires h in st && st[h].playing && forall g :: g in st && !st[g].playing ==> !st[g].isVirtual
    ensures Advances(st, st)
    ensures Advances(st, st[h := Stopped(st[h])])
    ensures Advances(st, st[h := st[h].(isVirtual := true)])
    ensures Advances(st, st[h := st[h].(getModeFails := true, set3DFails := true)])
  {
  }

  lemma AdvancesCompose(st: Status, st': Status, st'': Status)
    requires Advances(st, st') && Advances(st', st'')
    ensures Advances(st, st'')
  {
    forall h | h in st
      ensures st''[h] == st[h].(playing := st''[h].playing, isVirtual := st''[h].isVirtual,
                                getModeFails := st''[h].getModeFails, set3DFails := st''[h].set3DFails)
    {
      assert st'[h] == st[h].(playing := st'[h].playing, isVirtual := st'[h].isVirtual,
                              getModeFails := st'[h].getModeFails, set3DFails := st'[h].set3DFails);
    }
  }

  /** FMOD_Channel_Stop: a playing voice ends; the handle of an unknown or
      finished voice is invalid and the call changes nothing. */
  function Stop(st: Status, h: Channel): (r: Status)
    ensures r.Keys == st.Keys
    ensures ChannelIsPlaying(st, Some(h)) ==> r == st[h := Stopped(st[h])]
    ensures !ChannelIsPlaying(st, Some(h)) ==> r == st
  {
    if h in st && st[h].playing then st[h := Stopped(st[h])] else st
  }

  /** Stopping h changes no other voice. */
  lemma StopTouchesOnly(st: Status, h: Channel)
    ensures forall g :: g in st && Stop(st, h)[g] != st[g] ==> g == h
  {
  }

  /** Stopping every handle of hs at once. */
  function StopSet(st: Status, hs: set<Channel>): (r: Status)
    ensures r.Keys == st.Keys
  {
    map h | h in st :: if h in hs && st[h].playing then Stopped(st[h]) else st[h]
  }

  /** What stopping a set does: every voice of the set that was playing is
      stopped, no voice of the set is left playing, and every other voice is
      as it was. */
  lemma StopSetEffect(st: Status, hs: set<Channel>)
    ensures forall h :: h in st && h !in hs ==> StopSet(st, hs)[h] == st[h]
    ensures forall h :: h in hs ==> !ChannelIsPlaying(StopSet(st, hs), Some(h))
    ensures forall h :: h in hs && ChannelIsPlaying(st, Some(h)) ==> StopSet(st, hs)[h] == Stopped(st[h])
    ensures forall h :: h in st && !ChannelIsPlaying(st, Some(h)) ==> StopSet(st, hs)[h] == st[h]
  {
  }

  /** Stopping no handle changes nothing; the start of every stop loop. */
  lemma StopSetEmpty(st: Status)
    ensures StopSet(st, {}) == st
  {
  }

  /** One more Stop extends the stop set by its handle; the step of every
      stop loop. */
  lemma StopSetAdd(st: Status, hs: set<Channel>, h: Channel)
    ensures Stop(StopSet(st, hs), h) == StopSet(st, hs + {h})
  {
  }

  /** Stopping one set of handles and then another is stopping both. */
  lemma StopSetCompose(st: Status, a: set<Channel>, b: set<Channel>)
    ensures StopSet(StopSet(st, a), b) == StopSet(st, a + b)
  {
  }

  /** Stopping twice is stopping once, and a stopped voice is neither playing
      nor virtual. */
  lemma StopIdempotent(st: Status, h: Channel)
    ensures Stop(Stop(st, h), h) == Stop(st, h)
    ensures !ChannelIsPlaying(Stop(st, h), Some(h))
    ensures ChannelIsPlaying(st, Some(h)) ==> !ChannelIsVirtual(Stop(st, h), Some(h))
  {
  }

  /** Adding handles of voices that are not playing to a stop set changes
      nothing. */
  lemma StopSetIgnoresFinished(st: Status, hs: set<Channel>, more: set<Channel>)
    requires forall h :: h in more && h !in hs ==> !ChannelIsPlaying(st, Some(h))
    ensures StopSet(st, hs + more) == StopSet(st, hs)
  {
  }

  /** r has the same handles as st, every voice as live, as virtual and as
      prone to failure as before. */
  predicate SameLiveness(st: Status, r: Status) {
    r.Keys == st.Keys
    && forall g :: g in r ==> r[g].playing == st[g].playing && r[g].isVirtual == st[g].isVirtual
                              && r[g].getModeFails == st[g].getModeFails && r[g].set3DFails == st[g].set3DFails
  }

  /** Besides, every voice keeps its mode. */
  predicate SameKind(st: Status, r: Status) {
    SameLiveness(st, r) && forall g :: g in r ==> r[g].is3D == st[g].is3D && r[g].looping == st[g].looping
  }

  /** Keeping the kind composes; MoveSweepSlots and the ambient lemmas chain
      steps with it. */
  lemma SameKindTrans(a: Status, b: Status, c: Status)
    requires SameKind(a, b) && SameKind(b, c)
    ensures SameKind(a, c)
  {
  }

  /** Only h's voice may differ. */
  predicate OthersUnchanged(st: Status, r: Status, h: Channel) {
    forall g :: g in st && g != h ==> g in r && r[g] == st[g]
  }

  /** Every audible voice of st0 whose handle is not in except is still there,
      unchanged, in st. */
  predicate AudibleKept(st0: Status, st: Status, except: set<Channel>) {
    forall g :: g in st0 && g !in except && ChannelIsPlaying(st0, Some(g)) && !ChannelIsVirtual(st0, Some(g)) ==>
      g in st && st[g] == st0[g]
  }

  /** Per-channel setters reach only a live voice: a finished or stopped
      channel's handle is invalid and the call fails without effect. */
  function Update(st: Status, h: Channel, v: Voice): Status {
    if h in st && st[h].playing then st[h := v] else st
  }

  /** FMOD_Channel_SetMode, as far as 2D/3D and looping go. */
  function SetMode(st: Status, h: Channel, is3D: bool, looping: bool): (r: Status)
    ensures ChannelIsPlaying(st, Some(h)) ==> r == st[h := st[h].(is3D := is3D, looping := looping)]
    ensures !ChannelIsPlaying(st, Some(h)) ==> r == st
  {
    if h in st then Update(st, h, st[h].(is3D := is3D, looping := looping)) else st
  }

  /** FMOD_Channel_SetMode with the 3D bit cleared and FMOD_2D set, the other
      mode bits kept. */
  function SetMode2D(st: Status, h: Channel): (r: Status)
    ensures ChannelIsPlaying(st, Some(h)) ==> r == st[h := st[h].(is3D := false)]
    ensures !ChannelIsPlaying(st, Some(h)) ==> r == st
  {
    if h in st then SetMode(st, h, false, st[h].looping) else st
  }

  /** The mode change of Atmoky_AttachSpatializer: the mode is read back with
      FMOD_Channel_GetMode, FMOD_3D is cleared and FMOD_2D set. When reading
      fails the mode written is FMOD_2D alone, so a loop stops looping. */
  function SetModeFromRead2D(st: Status, h: Channel): (r: Status)
    ensures ChannelIsPlaying(st, Some(h)) ==>
              r == st[h := st[h].(is3D := false, looping := st[h].looping && !st[h].getModeFails)]
    ensures !ChannelIsPlaying(st, Some(h)) ==> r == st
  {
    if h in st && st[h].getModeFails then SetMode(st, h, false, false) else SetMode2D(st, h)
  }

  /** FMOD_Channel_Set3DAttributes; it fails for a channel that refuses it. */
  function Set3DAttributes(st: Status, h: Channel, pos: Vec3, vel: Vec3): (r: Status)
    ensures ChannelIsPlaying(st, Some(h)) && !st[h].set3DFails ==>
              r == st[h := st[h].(position := pos, velocity := vel)]
    ensures !ChannelIsPlaying(st, Some(h)) || st[h].set3DFails ==> r == st
  {
    if h in st && !st[h].set3DFails then Update(st, h, st[h].(position := pos, velocity := vel)) else st
  }

  /** FMOD_Channel_Set3DMinMaxDistance. */
  function Set3DMinMaxDistance(st: Status, h: Channel, minDist: real, maxDist: real): (r: Status)
    ensures ChannelIsPlaying(st, Some(h)) ==> r == st[h := st[h].(minDist := minDist, maxDist := maxDist)]
    ensures !ChannelIsPlaying(st, Some(h)) ==> r == st
  {
    if h in st then Update(st, h, st[h].(minDist := minDist, maxDist := maxDist)) else st
  }

  /** FMOD_Channel_SetVolume. */
  function SetVolume(st: Status, h: Channel, volume: real): (r: Status)
    ensures ChannelIsPlaying(st, Some(h)) ==> r == st[h := st[h].(volume := volume)]
    ensures !ChannelIsPlaying(st, Some(h)) ==> r == st
  {
    if h in st then Update(st, h, st[h].(volume := volume)) else st
  }

  /** No mode setter creates or forgets a voice, starts or stops one, or
      changes how it fails, and each touches h's voice alone. */
  lemma SetModeKeepsLiveness(st: Status, h: Channel, is3D: bool, looping: bool)
    ensures SameLiveness(st, SetMode(st, h, is3D, looping)) && OthersUnchanged(st, SetMode(st, h, is3D, looping), h)
  {
  }

  lemma SetMode2DKeepsLiveness(st: Status, h: Channel)
    ensures SameLiveness(st, SetMode2D(st, h)) && OthersUnchanged(st, SetMode2D(st, h), h)
  {
  }

  lemma SetModeFromRead2DKeepsLiveness(st: Status, h: Channel)
    ensures SameLiveness(st, SetModeFromRead2D(st, h)) && OthersUnchanged(st, SetModeFromRead2D(st, h), h)
  {
  }

  /** The other setters do not even change the mode. */
  lemma Set3DAttributesKeepsKind(st: Status, h: Channel, pos: Vec3, vel: Vec3)
    ensures SameKind(st, Set3DAttributes(st, h, pos, vel)) && OthersUnchanged(st, Set3DAttributes(st, h, pos, vel), h)
  {
  }

  lemma Set3DMinMaxDistanceKeepsKind(st: Status, h: Channel, minDist: real, maxDist: real)
    ensures SameKind(st, Set3DMinMaxDistance(st, h, minDist, maxDist))
            && OthersUnchanged(st, Set3DMinMaxDistance(st, h, minDist, maxDist), h)
  {
  }

  lemma SetVolumeKeepsKind(st: Status, h: Channel, volume: real)
    ensures SameKind(st, SetVolume(st, h, volume)) && OthersUnchanged(st, SetVolume(st, h, volume), h)
  {
  }

  /** The setter sequence of S_StaticSound without Atmoky, on a playing voice
      that accepts 3D attributes: a 3D loop at pos, at rest, with the given
      range and volume. */
  lemma Loop3DSetup(st: Status, h: Channel, pos: Vec3, minDist: real, maxDist: real, volume: real)
    requires h in st && st[h].playing && !st[h].set3DFails
    ensures SetVolume(Set3DMinMaxDistance(Set3DAttributes(SetMode(st, h, true, true), h, pos, Zero),
                                          h, minDist, maxDist), h, volume)
            == st[h := st[h].(is3D := true, looping := true, position := pos, velocity := Zero,
                              minDist := minDist, maxDist := maxDist, volume := volume)]
  {
  }

  /** The parameter block FMOD_DSP_PARAMETER_3DATTRIBUTES that the layer writes
      into an Atmoky spatializer. */
  datatype DspAttributes = DspAttributes(relative: Attributes3D, absolute: Attributes3D)
}
