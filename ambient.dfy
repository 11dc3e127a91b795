/** S_UpdateAmbientSounds as a function of the ambient loops' state: the
    per-frame fader of the NUM_AMBIENTS looping background sounds, which
    restarts a loop the mixer has let finish. */
module Ambience {
  import opened Options
  import opened Mixer
  import opened Motion
  import opened Registry
  import opened Slots

  /** ambient_fmod_channels, ambient_vol, the mixer, and fmod_sounds, which a
      restart may load into. */
  datatype Ambient = Ambient(channels: seq<Option<Channel>>, vols: seq<real>, st: Status, sounds: seq<FmodSfx>)

  /** What S_UpdateAmbientSounds learns from the game: whether the client is
      connected and active (cls.state == ca_active), whether the listener is
      inside a map leaf, s_ambientlevel, the leaf's level for each ambient,
      s_ambientfade and cls.frametime. */
  datatype AmbientEnv = AmbientEnv(active: bool, inLeaf: bool, level: real, leafLevel: nat -> real,
                                   fade: real, frametime: real)

  /** How far a volume may move in one frame. */
  function FadeAmount(env: AmbientEnv): real {
    env.frametime * env.fade
  }

  /** The volume ambient i fades to this frame. */
  function FadedVolume(vol: real, env: AmbientEnv, i: nat): real {
    FadeStep(vol, AmbientTarget(env.level, env.leafLevel(i)), FadeAmount(env))
  }

  /** The voice of a restarted ambient loop: played in its sound's mode, then
      switched to 2D and looping. */
  function AmbientVoice(st: Status, h: Channel, atmoky: bool): (r: Status)
    ensures r == st[h := PlayedVoice(!atmoky).(is3D := false, looping := true)]
  {
    SetMode(st[h := PlayedVoice(!atmoky)], h, false, true)
  }

  predicate Shaped(a: Ambient, sfx: seq<Option<nat>>, names: seq<string>, played: seq<Option<Channel>>) {
    |sfx| == |played| == |a.channels| == |a.vols| && |names| == |a.sounds|
    && forall j :: 0 <= j < |sfx| && sfx[j].Some? ==> sfx[j].value < |a.sounds|
  }

  /** One iteration of the fading loop, for ambient i whose sound is sfx. */
  function AmbientStep(a: Ambient, i: nat, sfx: Option<nat>, names: seq<string>, env: AmbientEnv,
                       assets: string -> AssetLoad, played: Option<Channel>, atmoky: bool): (r: Ambient)
    requires i < |a.channels| == |a.vols| && |names| == |a.sounds|
    requires sfx.Some? ==> sfx.value < |a.sounds|
    ensures |r.channels| == |a.channels| && |r.vols| == |a.vols| && |r.sounds| == |a.sounds|
  {
    if sfx.None? then a
    else
      var vol := FadedVolume(a.vols[i], env, i);
      var a1 := a.(vols := a.vols[i := vol]);
      if ChannelIsPlaying(a.st, a.channels[i]) then
        a1.(st := SetVolume(a.st, a.channels[i].value, vol / 255.0))
      else
        var snd := ExpectedLoad(a.sounds[sfx.value], assets(SoundPath(names[sfx.value])));
        var a2 := a1.(sounds := a.sounds[sfx.value := FmodSfx(snd, true)]);
        if snd.None? then a2
        else if played.None? then a2.(channels := a.channels[i := None])
        else
          var h := played.value;
          a2.(channels := a.channels[i := Some(h)], st := SetVolume(AmbientVoice(a.st, h, atmoky), h, vol / 255.0))
  }

  /** The fading loop of S_UpdateAmbientSounds from ambient i on. */
  function AmbientSweep(a: Ambient, sfx: seq<Option<nat>>, names: seq<string>, env: AmbientEnv,
                        assets: string -> AssetLoad, played: seq<Option<Channel>>, atmoky: bool, i: nat): (r: Ambient)
    requires Shaped(a, sfx, names, played) && i <= |sfx|
    ensures |r.channels| == |a.channels| && |r.vols| == |a.vols| && |r.sounds| == |a.sounds|
    decreases |sfx| - i
  {
    if i == |sfx| then a
    else AmbientSweep(AmbientStep(a, i, sfx[i], names, env, assets, played[i], atmoky),
                      sfx, names, env, assets, played, atmoky, i + 1)
  }

  /** Setting every held loop's volume to 0, from ambient i on. */
  function Silenced(st: Status, chs: seq<Option<Channel>>, i: nat): Status
    requires i <= |chs|
    decreases |chs| - i
  {
    if i == |chs| then st
    else Silenced(if chs[i].Some? then SetVolume(st, chs[i].value, 0.0) else st, chs, i + 1)
  }

  /** S_UpdateAmbientSounds: everything stops when the client is not active;
      everything falls silent outside the map or with s_ambientlevel 0;
      otherwise the fading loop runs. */
  function AmbientUpdate(a: Ambient, sfx: seq<Option<nat>>, names: seq<string>, env: AmbientEnv,
                         assets: string -> AssetLoad, played: seq<Option<Channel>>, atmoky: bool): Ambient
    requires Shaped(a, sfx, names, played)
  {
    if !env.active then
      a.(channels := seq(|a.channels|, _ => None), vols := seq(|a.vols|, _ => 0.0),
         st := StopSet(a.st, AmbientHandles(a.channels)))
    else if !env.inLeaf || env.level == 0.0 then
      a.(vols := seq(|a.vols|, _ => 0.0), st := Silenced(a.st, a.channels, 0))
    else AmbientSweep(a, sfx, names, env, assets, played, atmoky, 0)
  }

  /** The handles held, and the handles the mixer may hand out, are all
      distinct; those held are known to the mixer and the others are not. */
  predicate FreshFrom(a: Ambient, played: seq<Option<Channel>>, i: nat) {
    (forall j :: 0 <= j < |a.channels| && a.channels[j].Some? ==> a.channels[j].value in a.st)
    && (forall j, m :: 0 <= j < |a.channels| && 0 <= m < |a.channels| && j != m && a.channels[j].Some? ==>
          a.channels[j] != a.channels[m])
    && (forall j :: i <= j < |played| && played[j].Some? ==> played[j].value !in a.st)
    && (forall j, m :: i <= j < |played| && i <= m < |played| && j != m && played[j].Some? ==> played[j] != played[m])
  }

  /** Once loaded, a sound's record gives the same answer however often it is
      loaded again. */
  lemma ReloadIsCached(sounds: seq<FmodSfx>, x: nat, y: nat, asset: AssetLoad, other: AssetLoad)
    requires x < |sounds| && y < |sounds|
    ensures var s' := sounds[x := FmodSfx(ExpectedLoad(sounds[x], asset), true)];
            x == y ==> ExpectedLoad(s'[y], other) == ExpectedLoad(sounds[x], asset)
  {
  }

  /** What one iteration changes: only ambient i's handle and volume, only
      the voices of its old and new handle, no voice's liveness, and the
      handles stay distinct and fresh. */
  lemma AmbientStepFacts(a: Ambient, sfx: seq<Option<nat>>, names: seq<string>, env: AmbientEnv,
                         assets: string -> AssetLoad, played: seq<Option<Channel>>, atmoky: bool, i: nat)
    requires Shaped(a, sfx, names, played) && i < |sfx| && FreshFrom(a, played, i)
    ensures var a' := AmbientStep(a, i, sfx[i], names, env, assets, played[i], atmoky);
            (forall j :: 0 <= j < |sfx| && j != i ==> a'.channels[j] == a.channels[j] && a'.vols[j] == a.vols[j])
            && a.st.Keys <= a'.st.Keys
            && (forall g :: g in a.st ==> a'.st[g].playing == a.st[g].playing)
            && (forall g :: g in a.st && a.channels[i] != Some(g) ==> a'.st[g] == a.st[g])
            && (a'.channels[i] == a.channels[i] || a'.channels[i].None? || a'.channels[i] == played[i])
            && FreshFrom(a', played, i + 1)
  {
    AmbientStepHandles(a, sfx, names, env, assets, played, atmoky, i);
    AmbientStepVoices(a, sfx, names, env, assets, played, atmoky, i);
    AmbientStepFresh(a, sfx, names, env, assets, played, atmoky, i);
  }

  /** One iteration touches no other ambient, and ambient i keeps its handle,
      drops it, or takes the mixer's new one. */
  lemma AmbientStepHandles(a: Ambient, sfx: seq<Option<nat>>, names: seq<string>, env: AmbientEnv,
                           assets: string -> AssetLoad, played: seq<Option<Channel>>, atmoky: bool, i: nat)
    requires Shaped(a, sfx, names, played) && i < |sfx|
    ensures var a' := AmbientStep(a, i, sfx[i], names, env, assets, played[i], atmoky);
            (forall j :: 0 <= j < |sfx| && j != i ==> a'.channels[j] == a.channels[j] && a'.vols[j] == a.vols[j])
            && (a'.channels[i] == a.channels[i] || a'.channels[i].None? || a'.channels[i] == played[i])
  {
  }

  /** One iteration forgets no voice, changes no voice's liveness and
      touches only the voice it holds or starts. */
  lemma AmbientStepVoices(a: Ambient, sfx: seq<Option<nat>>, names: seq<string>, env: AmbientEnv,
                          assets: string -> AssetLoad, played: seq<Option<Channel>>, atmoky: bool, i: nat)
    requires Shaped(a, sfx, names, played) && i < |sfx| && FreshFrom(a, played, i)
    ensures var a' := AmbientStep(a, i, sfx[i], names, env, assets, played[i], atmoky);
            a.st.Keys <= a'.st.Keys
            && (forall g :: g in a.st ==> a'.st[g].playing == a.st[g].playing)
            && (forall g :: g in a.st && a.channels[i] != Some(g) ==> a'.st[g] == a.st[g])
  {
  }

  /** One iteration keeps the held handles distinct and known, and the ones
      still to come new. */
  lemma AmbientStepFresh(a: Ambient, sfx: seq<Option<nat>>, names: seq<string>, env: AmbientEnv,
                         assets: string -> AssetLoad, played: seq<Option<Channel>>, atmoky: bool, i: nat)
    requires Shaped(a, sfx, names, played) && i < |sfx| && FreshFrom(a, played, i)
    ensures FreshFrom(AmbientStep(a, i, sfx[i], names, env, assets, played[i], atmoky), played, i + 1)
  {
  }

  /** One iteration fades ambient i's volume when it has a sound and keeps
      the shape of the state. */
  lemma AmbientStepVolume(a: Ambient, sfx: seq<Option<nat>>, names: seq<string>, env: AmbientEnv,
                          assets: string -> AssetLoad, played: seq<Option<Channel>>, atmoky: bool, i: nat)
    requires Shaped(a, sfx, names, played) && i < |sfx|
    ensures var a' := AmbientStep(a, i, sfx[i], names, env, assets, played[i], atmoky);
            Shaped(a', sfx, names, played)
            && a'.vols == a.vols[i := if sfx[i].Some? then FadedVolume(a.vols[i], env, i) else a.vols[i]]
  {
  }

  /** The fader: from i on, each ambient with a sound takes one FadeStep
      towards its target; the others keep their volume. */
  lemma {:induction false} AmbientSweepVolumes(a: Ambient, sfx: seq<Option<nat>>, names: seq<string>, env: AmbientEnv,
                                               assets: string -> AssetLoad, played: seq<Option<Channel>>,
                                               atmoky: bool, i: nat)
    requires Shaped(a, sfx, names, played) && i <= |sfx|
    ensures var r := AmbientSweep(a, sfx, names, env, assets, played, atmoky, i);
            forall j :: 0 <= j < |sfx| ==>
              r.vols[j] == (if i <= j && sfx[j].Some? then FadedVolume(a.vols[j], env, j) else a.vols[j])
    decreases |sfx| - i
  {
    if i < |sfx| {
      var a' := AmbientStep(a, i, sfx[i], names, env, assets, played[i], atmoky);
      AmbientStepVolume(a, sfx, names, env, assets, played, atmoky, i);
      AmbientSweepVolumes(a', sfx, names, env, assets, played, atmoky, i + 1);
    }
  }

  /** What the rest of the loop keeps from i on: no handle of the mixer is
      lost and no voice's liveness changes, every ambient before i keeps its
      handle, a voice no ambient from i on holds is untouched, and the handles
      stay distinct. */
  lemma {:induction false} AmbientSweepKeeps(a: Ambient, sfx: seq<Option<nat>>, names: seq<string>, env: AmbientEnv,
                                             assets: string -> AssetLoad, played: seq<Option<Channel>>,
                                             atmoky: bool, i: nat)
    requires Shaped(a, sfx, names, played) && i <= |sfx| && FreshFrom(a, played, i)
    ensures var r := AmbientSweep(a, sfx, names, env, assets, played, atmoky, i);
            a.st.Keys <= r.st.Keys
            && (forall g :: g in a.st ==> r.st[g].playing == a.st[g].playing)
            && (forall j :: 0 <= j < i ==> r.channels[j] == a.channels[j])
            && (forall g :: g in a.st && (forall j :: i <= j < |sfx| ==> a.channels[j] != Some(g)) ==>
                  r.st[g] == a.st[g])
            && FreshFrom(r, played, |sfx|)
    decreases |sfx| - i
  {
    if i < |sfx| {
      var a' := AmbientStep(a, i, sfx[i], names, env, assets, played[i], atmoky);
      AmbientStepFacts(a, sfx, names, env, assets, played, atmoky, i);
      AmbientSweepKeeps(a', sfx, names, env, assets, played, atmoky, i + 1);
    }
  }

  /** Restarts: from i on, an ambient with a sound keeps a loop that still
      plays; a finished or missing loop is replaced by the mixer's new handle
      when its sound loads (forgotten when the mixer refuses to play it), and
      kept as it was when the sound does not load. */
  lemma {:induction false} AmbientSweepChannels(a: Ambient, sfx: seq<Option<nat>>, names: seq<string>, env: AmbientEnv,
                                                assets: string -> AssetLoad, played: seq<Option<Channel>>,
                                                atmoky: bool, i: nat)
    requires Shaped(a, sfx, names, played) && i <= |sfx| && FreshFrom(a, played, i)
    ensures var r := AmbientSweep(a, sfx, names, env, assets, played, atmoky, i);
            forall j :: i <= j < |sfx| ==>
              r.channels[j]
              == if sfx[j].None? || ChannelIsPlaying(a.st, a.channels[j]) then a.channels[j]
                 else if ExpectedLoad(a.sounds[sfx[j].value], assets(SoundPath(names[sfx[j].value]))).None?
                 then a.channels[j]
                 else played[j]
    decreases |sfx| - i
  {
    if i < |sfx| {
      var a' := AmbientStep(a, i, sfx[i], names, env, assets, played[i], atmoky);
      AmbientStepFacts(a, sfx, names, env, assets, played, atmoky, i);
      AmbientStepVolume(a, sfx, names, env, assets, played, atmoky, i);
      AmbientStepLater(a, sfx, names, env, assets, played, atmoky, i);
      AmbientSweepChannels(a', sfx, names, env, assets, played, atmoky, i + 1);
      AmbientSweepKeeps(a', sfx, names, env, assets, played, atmoky, i + 1);
    }
  }

  /** After one iteration, every later ambient sees the handle, the liveness
      of its loop and the result of loading its sound it saw before. */
  lemma AmbientStepLater(a: Ambient, sfx: seq<Option<nat>>, names: seq<string>, env: AmbientEnv,
                         assets: string -> AssetLoad, played: seq<Option<Channel>>, atmoky: bool, i: nat)
    requires Shaped(a, sfx, names, played) && i < |sfx| && FreshFrom(a, played, i)
    ensures var a' := AmbientStep(a, i, sfx[i], names, env, assets, played[i], atmoky);
            forall j :: i < j < |sfx| ==>
              a'.channels[j] == a.channels[j]
              && ChannelIsPlaying(a'.st, a'.channels[j]) == ChannelIsPlaying(a.st, a.channels[j])
              && (sfx[j].Some? ==>
                    ExpectedLoad(a'.sounds[sfx[j].value], assets(SoundPath(names[sfx[j].value])))
                    == ExpectedLoad(a.sounds[sfx[j].value], assets(SoundPath(names[sfx[j].value]))))
  {
    var a' := AmbientStep(a, i, sfx[i], names, env, assets, played[i], atmoky);
    AmbientStepFacts(a, sfx, names, env, assets, played, atmoky, i);
    forall j | i < j < |sfx| && sfx[j].Some?
      ensures ExpectedLoad(a'.sounds[sfx[j].value], assets(SoundPath(names[sfx[j].value])))
              == ExpectedLoad(a.sounds[sfx[j].value], assets(SoundPath(names[sfx[j].value])))
    {
      if sfx[i].Some? {
        ReloadIsCached(a.sounds, sfx[i].value, sfx[j].value, assets(SoundPath(names[sfx[i].value])),
                       assets(SoundPath(names[sfx[j].value])));
      }
    }
  }

  /** Every ambient loop with a sound that plays after the loop plays at its
      faded volume / 255. */
  lemma {:induction false} AmbientSweepPlaysAtVolume(a: Ambient, sfx: seq<Option<nat>>, names: seq<string>,
                                                     env: AmbientEnv, assets: string -> AssetLoad,
                                                     played: seq<Option<Channel>>, atmoky: bool, i: nat)
    requires Shaped(a, sfx, names, played) && i <= |sfx| && FreshFrom(a, played, i)
    ensures var r := AmbientSweep(a, sfx, names, env, assets, played, atmoky, i);
            forall j :: i <= j < |sfx| && sfx[j].Some? && ChannelIsPlaying(r.st, r.channels[j]) ==>
              r.st[r.channels[j].value].volume == r.vols[j] / 255.0
    decreases |sfx| - i
  {
    if i < |sfx| {
      var a' := AmbientStep(a, i, sfx[i], names, env, assets, played[i], atmoky);
      AmbientStepFacts(a, sfx, names, env, assets, played, atmoky, i);
      AmbientStepVolume(a, sfx, names, env, assets, played, atmoky, i);
      AmbientSweepPlaysAtVolume(a', sfx, names, env, assets, played, atmoky, i + 1);
      AmbientSweepKeeps(a', sfx, names, env, assets, played, atmoky, i + 1);
      AmbientSweepVolumes(a', sfx, names, env, assets, played, atmoky, i + 1);
      var r := AmbientSweep(a', sfx, names, env, assets, played, atmoky, i + 1);
      if sfx[i].Some? && ChannelIsPlaying(r.st, r.channels[i]) {
        var h := r.channels[i].value;
        assert a'.channels[i] == Some(h);
        assert forall j :: i + 1 <= j < |sfx| ==> a'.channels[j] != Some(h);
        assert r.st[h] == a'.st[h];
      }
    }
  }

  /** Outside the map every loop still held is silenced, and nothing else
      changes: no voice stops or starts. */
  lemma {:induction false} SilencedEffect(st: Status, chs: seq<Option<Channel>>, i: nat)
    requires i <= |chs|
    requires forall j, m :: 0 <= j < |chs| && 0 <= m < |chs| && j != m && chs[j].Some? ==> chs[j] != chs[m]
    ensures var r := Silenced(st, chs, i);
            SameKind(st, r)
            && (forall j :: i <= j < |chs| && ChannelIsPlaying(st, chs[j]) ==>
                  r[chs[j].value] == st[chs[j].value].(volume := 0.0))
            && (forall g :: g in st && (forall j :: i <= j < |chs| ==> chs[j] != Some(g)) ==> r[g] == st[g])
    decreases |chs| - i
  {
    if i < |chs| {
      var st' := if chs[i].Some? then SetVolume(st, chs[i].value, 0.0) else st;
      if chs[i].Some? {
        SetVolumeKeepsKind(st, chs[i].value, 0.0);
      }
      SilencedEffect(st', chs, i + 1);
      SameKindTrans(st, st', Silenced(st', chs, i + 1));
    }
  }

  /** The fading loop keeps the handle discipline of the pool and the ambient
      loops, when every handle the mixer may hand out is new and distinct. */
  lemma {:induction false} AmbientSweepKeepsHandles(slots: seq<Slot>, a: Ambient, sfx: seq<Option<nat>>,
                                                    names: seq<string>, env: AmbientEnv,
                                                    assets: string -> AssetLoad, played: seq<Option<Channel>>,
                                                    atmoky: bool, dsps: set<Dsp>, n: int, i: nat)
    requires Shaped(a, sfx, names, played) && i <= |sfx| && FreshFrom(a, played, i)
    requires HandlesOk(slots, a.channels, a.st, dsps, n)
    ensures var r := AmbientSweep(a, sfx, names, env, assets, played, atmoky, i);
            HandlesOk(slots, r.channels, r.st, dsps, n)
    decreases |sfx| - i
  {
    if i < |sfx| {
      var a' := AmbientStep(a, i, sfx[i], names, env, assets, played[i], atmoky);
      AmbientStepKeepsHandles(slots, a, sfx, names, env, assets, played, atmoky, dsps, n, i);
      AmbientStepVolume(a, sfx, names, env, assets, played, atmoky, i);
      AmbientSweepKeepsHandles(slots, a', sfx, names, env, assets, played, atmoky, dsps, n, i + 1);
    }
  }

  /** One iteration keeps the handle discipline and the freshness of the
      handles still to come. */
  lemma AmbientStepKeepsHandles(slots: seq<Slot>, a: Ambient, sfx: seq<Option<nat>>, names: seq<string>,
                                env: AmbientEnv, assets: string -> AssetLoad, played: seq<Option<Channel>>,
                                atmoky: bool, dsps: set<Dsp>, n: int, i: nat)
    requires Shaped(a, sfx, names, played) && i < |sfx| && FreshFrom(a, played, i)
    requires HandlesOk(slots, a.channels, a.st, dsps, n)
    ensures var a' := AmbientStep(a, i, sfx[i], names, env, assets, played[i], atmoky);
            HandlesOk(slots, a'.channels, a'.st, dsps, n) && FreshFrom(a', played, i + 1)
  {
    var a' := AmbientStep(a, i, sfx[i], names, env, assets, played[i], atmoky);
    AmbientStepFacts(a, sfx, names, env, assets, played, atmoky, i);
    WiderKeepsHandles(slots, a.channels, a.st, a'.st, dsps, dsps, n, n);
    if a'.channels[i] != a.channels[i] {
      if a'.channels[i].None? {
        NarrowingKeepsHandles(slots, slots, a.channels, a'.channels, a'.st, a'.st, dsps, dsps, n, n);
      } else {
        var h := a'.channels[i].value;
        FreshIsUnused(slots, a.channels, a.st, dsps, n, h);
        AmbientInstallKeepsHandles(slots, a.channels, a'.st, dsps, n, i, h);
        assert a'.channels == a.channels[i := Some(h)];
      }
    } else {
      assert a'.channels == a.channels;
    }
  }

  /** The handles the mixer may hand out to the ambient loops are new and
      distinct. */
  predicate FreshPlays(st: Status, played: seq<Option<Channel>>) {
    (forall j :: 0 <= j < |played| && played[j].Some? ==> played[j].value !in st)
    && forall j, m :: 0 <= j < |played| && 0 <= m < |played| && j != m && played[j].Some? ==> played[j] != played[m]
  }

  /** S_UpdateAmbientSounds keeps the handle discipline and forgets no handle
      of the mixer. */
  lemma AmbientUpdateKeepsHandles(slots: seq<Slot>, a: Ambient, sfx: seq<Option<nat>>, names: seq<string>,
                                  env: AmbientEnv, assets: string -> AssetLoad, played: seq<Option<Channel>>,
                                  atmoky: bool, dsps: set<Dsp>, n: int)
    requires Shaped(a, sfx, names, played) && FreshPlays(a.st, played)
    requires HandlesOk(slots, a.channels, a.st, dsps, n)
    ensures var r := AmbientUpdate(a, sfx, names, env, assets, played, atmoky);
            HandlesOk(slots, r.channels, r.st, dsps, n) && a.st.Keys <= r.st.Keys
            && |r.channels| == |a.channels| && |r.vols| == |a.vols| && |r.sounds| == |a.sounds|
  {
    var r := AmbientUpdate(a, sfx, names, env, assets, played, atmoky);
    if !env.active {
      AmbientClearedKeepsHandles(slots, a.channels, r.channels, a.st, r.st, dsps, n);
    } else if !env.inLeaf || env.level == 0.0 {
      SilencedEffect(a.st, a.channels, 0);
    } else {
      AmbientSweepKeepsHandles(slots, a, sfx, names, env, assets, played, atmoky, dsps, n, 0);
      AmbientSweepKeeps(a, sfx, names, env, assets, played, atmoky, 0);
    }
  }

  /** The three branches of S_UpdateAmbientSounds, volume by volume: with the
      client inactive every loop is stopped and forgotten and every volume is
      0; outside the map or with s_ambientlevel 0 every volume is 0 and every
      loop is kept; otherwise each ambient with a sound moves towards its
      target by at most frametime * s_ambientfade, without overshooting, and
      every other ambient keeps its volume. */
  lemma AmbientUpdateVolumes(a: Ambient, sfx: seq<Option<nat>>, names: seq<string>, env: AmbientEnv,
                             assets: string -> AssetLoad, played: seq<Option<Channel>>, atmoky: bool)
    requires Shaped(a, sfx, names, played)
    ensures var r := AmbientUpdate(a, sfx, names, env, assets, played, atmoky);
            !env.active ==>
              (forall j :: 0 <= j < |r.channels| ==> r.channels[j].None?)
              && (forall j :: 0 <= j < |r.vols| ==> r.vols[j] == 0.0)
              && r.st == StopSet(a.st, AmbientHandles(a.channels))
    ensures var r := AmbientUpdate(a, sfx, names, env, assets, played, atmoky);
            env.active && (!env.inLeaf || env.level == 0.0) ==>
              r.channels == a.channels && forall j :: 0 <= j < |r.vols| ==> r.vols[j] == 0.0
    ensures var r := AmbientUpdate(a, sfx, names, env, assets, played, atmoky);
            env.active && env.inLeaf && env.level != 0.0 && FadeAmount(env) >= 0.0 ==>
              forall j :: 0 <= j < |sfx| ==>
                if sfx[j].None? then r.vols[j] == a.vols[j]
                else var t := AmbientTarget(env.level, env.leafLevel(j));
                     Min(a.vols[j], t) <= r.vols[j] <= Max(a.vols[j], t)
                     && -FadeAmount(env) <= r.vols[j] - a.vols[j] <= FadeAmount(env)
  {
    if env.active && env.inLeaf && env.level != 0.0 {
      AmbientSweepVolumes(a, sfx, names, env, assets, played, atmoky, 0);
      if FadeAmount(env) >= 0.0 {
        forall j | 0 <= j < |sfx| && sfx[j].Some?
          ensures var t := AmbientTarget(env.level, env.leafLevel(j));
                  var v := FadedVolume(a.vols[j], env, j);
                  Min(a.vols[j], t) <= v <= Max(a.vols[j], t) && -FadeAmount(env) <= v - a.vols[j] <= FadeAmount(env)
        {
          FadeStepNoOvershoot(a.vols[j], AmbientTarget(env.level, env.leafLevel(j)), FadeAmount(env));
        }
      }
    }
  }
}
