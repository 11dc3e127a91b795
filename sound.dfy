/** The global tables of the FMOD sound layer and the operations that update
    them in place: the sound-name registry, the tracked-channel pool, the
    per-frame sweeps, the ambient loops and the blocking counter. FMOD itself
    is the map status from channel handle to voice (and dspParams from DSP
    handle to its last 3D attribute block); handles the mixer hands out are
    parameters of the operations that obtain them. */
module SoundSystem {
  import opened Options
  import opened Vectors
  import opened Mixer
  import opened Motion
  import opened Registry
  import opened Slots
  import opened Frame
  import opened Starting
  import opened Sweeps
  import opened Ambience

  /** NUM_AMBIENTS. */
  const NumAmbients: nat := 4

  /** The ambient sounds S_Init precaches. */
  const WaterSound: string := "ambience/water1.wav"
  const SkySound: string := "ambience/wind2.wav"

  /** The two Sys_Error exits of S_FindName. */
  datatype Fatal = NameTooLong | TableOverflow

  class Sound {
    /** fmod_channels, of a fixed size. */
    const channels: array<Slot>
    /** known_sfx (the names) and fmod_sounds, in parallel, max_sfx long. */
    var knownSfx: array<string>
    var fmodSounds: array<FmodSfx>
    var maxSfx: int
    var numSfx: int
    /** ambient_sfx, ambient_fmod_channels and ambient_vol. */
    const ambientSfx: array<Option<nat>>
    const ambientChannels: array<Option<Channel>>
    const ambientVol: array<real>
    /** snd_blocked, and whether the master channel group is muted. */
    var sndBlocked: int
    var masterMuted: bool
    /** atmoky_available: the spatializer plugin was found. */
    const atmokyAvailable: bool
    var status: Status
    var dspParams: map<Dsp, DspAttributes>

    ghost predicate Valid()
      reads this, channels, knownSfx, ambientSfx, ambientChannels
    {
      RegistryOk() && HandlesOk(channels[..], ambientChannels[..], status, dspParams.Keys, maxSfx)
    }

    /** The part of Valid() that the pool and the mixer do not affect: table
        sizes, distinct short names, ambient sounds registered, the blocking
        counter in step with the mute. */
    ghost predicate RegistryOk()
      reads this`knownSfx, this`fmodSounds, this`maxSfx, this`numSfx, this`sndBlocked, this`masterMuted
      reads knownSfx, ambientSfx
    {
      knownSfx.Length == maxSfx && fmodSounds.Length == maxSfx
      && SfxInitial <= maxSfx < IntMax && maxSfx % SfxGrow == 0
      && 0 <= numSfx <= maxSfx
      && NamesOk(knownSfx[..numSfx])
      && ambientSfx.Length == NumAmbients && ambientChannels.Length == NumAmbients
      && ambientVol.Length == NumAmbients
      && (forall i :: 0 <= i < NumAmbients && ambientSfx[i].Some? ==> ambientSfx[i].value < numSfx)
      && sndBlocked >= 0 && masterMuted == (sndBlocked > 0)
    }

    /** The part of the state S_StartSound and S_StaticSound change. */
    ghost function State(): Pool
      reads this, channels
    {
      Pool(channels[..], status, dspParams)
    }

    /** The registered names, in registration order. */
    ghost function Names(): seq<string>
      reads this, knownSfx
      requires 0 <= numSfx <= knownSfx.Length
    {
      knownSfx[..numSfx]
    }

    /** The FMOD records of the registered names. */
    ghost function Sounds(): seq<FmodSfx>
      reads this, fmodSounds
      requires 0 <= numSfx <= fmodSounds.Length
    {
      fmodSounds[..numSfx]
    }

    /** The tables as the FMOD branch of S_Init leaves them: an empty registry of
        SFX_INITIAL entries, every slot free, no ambient loop, nothing blocked. */
    constructor (n: nat, atmoky: bool)
      ensures Valid()
      ensures channels.Length == n && forall j :: 0 <= j < n ==> channels[j] == ZeroSlot
      ensures maxSfx == SfxInitial && numSfx == 0
      ensures forall j :: 0 <= j < maxSfx ==> knownSfx[j] == "" && fmodSounds[j] == Unloaded
      ensures forall i :: 0 <= i < NumAmbients ==>
                ambientSfx[i].None? && ambientChannels[i].None? && ambientVol[i] == 0.0
      ensures status == map[] && dspParams == map[] && sndBlocked == 0 && !masterMuted
      ensures atmokyAvailable == atmoky
    {
      channels := new Slot[n](_ => ZeroSlot);
      knownSfx := new string[SfxInitial](_ => "");
      fmodSounds := new FmodSfx[SfxInitial](_ => Unloaded);
      maxSfx := SfxInitial;
      numSfx := 0;
      ambientSfx := new Option<nat>[NumAmbients](_ => None);
      ambientChannels := new Option<Channel>[NumAmbients](_ => None);
      ambientVol := new real[NumAmbients](_ => 0.0);
      sndBlocked := 0;
      masterMuted := false;
      atmokyAvailable := atmoky;
      status := map[];
      dspParams := map[];
      new;
      InitialHandlesOk(channels[..], ambientChannels[..], maxSfx);
      assert knownSfx[..numSfx] == [];
    }

    // ------------------------------------------------------------------
    // Sound registry

    /** SfxIndex: a reference inside the current table is its own index;
        anything else is -1. */
    function SfxIndex(idx: int): (r: int)
      reads this
      ensures r >= 0 <==> 0 <= idx < maxSfx
      ensures r >= 0 ==> r == idx
      ensures r < 0 ==> r == -1
    {
      if idx < 0 || idx >= maxSfx then -1 else idx
    }

    /** GrowSfxArrays. It refuses (fatally) to reach INT_MAX; otherwise both
        tables get SFX_GROW more zeroed entries and keep every old one. Sound
        references are indices, so the ambients and the slots keep pointing at
        the same entries without being touched. */
    method GrowSfxArrays() returns (ok: bool)
      requires Valid()
      modifies this`knownSfx, this`fmodSounds, this`maxSfx
      ensures Valid()
      ensures ok <==> old(maxSfx) + SfxGrow < IntMax
      ensures ok ==> maxSfx == old(maxSfx) + SfxGrow && fresh(knownSfx) && fresh(fmodSounds)
      ensures !ok ==> maxSfx == old(maxSfx) && knownSfx == old(knownSfx) && fmodSounds == old(fmodSounds)
      ensures knownSfx[..old(maxSfx)] == old(knownSfx[..]) && fmodSounds[..old(maxSfx)] == old(fmodSounds[..])
      ensures forall j :: old(maxSfx) <= j < maxSfx ==> knownSfx[j] == "" && fmodSounds[j] == Unloaded
      ensures Names() == old(Names()) && Sounds() == old(Sounds())
    {
      if maxSfx + SfxGrow >= IntMax {
        return false;
      }
      WiderKeepsHandles(channels[..], ambientChannels[..], status, status, dspParams.Keys, dspParams.Keys,
                        maxSfx, maxSfx + SfxGrow);
      Regrow();
      return true;
    }

    /** The two reallocs and the new max_sfx of GrowSfxArrays. */
    method Regrow()
      requires knownSfx.Length == maxSfx && fmodSounds.Length == maxSfx && 0 <= numSfx <= maxSfx
      modifies this`knownSfx, this`fmodSounds, this`maxSfx
      ensures maxSfx == old(maxSfx) + SfxGrow && fresh(knownSfx) && fresh(fmodSounds)
      ensures knownSfx.Length == maxSfx && fmodSounds.Length == maxSfx
      ensures knownSfx[..old(maxSfx)] == old(knownSfx[..]) && fmodSounds[..old(maxSfx)] == old(fmodSounds[..])
      ensures forall j :: old(maxSfx) <= j < maxSfx ==> knownSfx[j] == "" && fmodSounds[j] == Unloaded
      ensures Names() == old(Names()) && Sounds() == old(Sounds())
    {
      var newKnown := Extended(knownSfx, maxSfx + SfxGrow, "");
      var newFmod := Extended(fmodSounds, maxSfx + SfxGrow, Unloaded);
      assert newKnown[..numSfx] == knownSfx[..numSfx];
      assert newFmod[..numSfx] == fmodSounds[..numSfx];
      knownSfx, fmodSounds, maxSfx := newKnown, newFmod, maxSfx + SfxGrow;
    }

    /** The realloc of GrowSfxArrays: a new array of n elements holding src at
        its front and fill after it. */
    static method Extended<T>(src: array<T>, n: nat, fill: T) returns (dst: array<T>)
      requires src.Length <= n
      ensures fresh(dst) && dst.Length == n
      ensures dst[..src.Length] == src[..]
      ensures forall j :: src.Length <= j < n ==> dst[j] == fill
    {
      dst := new T[n](_ => fill);
      CopyPrefix(src, dst);
      assert dst[..src.Length] == src[..];
    }

    /** The memcpy of GrowSfxArrays: src is copied to the front of dst, the rest
        of dst is kept. */
    static method CopyPrefix<T>(src: array<T>, dst: array<T>)
      requires src.Length <= dst.Length && src != dst
      modifies dst
      ensures forall j :: 0 <= j < src.Length ==> dst[j] == src[j]
      ensures forall j :: src.Length <= j < dst.Length ==> dst[j] == old(dst[j])
    {
      var i := 0;
      while i < src.Length
        invariant 0 <= i <= src.Length
        invariant forall j :: 0 <= j < i ==> dst[j] == src[j]
        invariant forall j :: src.Length <= j < dst.Length ==> dst[j] == old(dst[j])
      {
        dst[i] := src[i];
        i := i + 1;
      }
    }

    /** The search of S_FindName: the position of name among the registered
        names, if it is there. */
    method Lookup(name: string) returns (r: Option<nat>)
      requires 0 <= numSfx <= knownSfx.Length
      ensures r.Some? ==> r.value < numSfx && Names()[r.value] == name
      ensures r.None? <==> name !in Names()
    {
      var i := 0;
      while i < numSfx
        invariant 0 <= i <= numSfx
        invariant forall j :: 0 <= j < i ==> knownSfx[j] != name
      {
        if knownSfx[i] == name {
          return Some(i);
        }
        i := i + 1;
      }
      return None;
    }

    /** S_FindName: the index of name, registering it (with an unloaded record)
        at the end of the table when it is new, and growing the table when it
        is full. A name of MAX_QPATH characters or more, and a table that
        cannot grow, are fatal and change nothing. */
    method FindName(name: string) returns (r: Result<nat, Fatal>)
      requires Valid()
      modifies this`knownSfx, this`fmodSounds, this`maxSfx, this`numSfx, knownSfx, fmodSounds
      ensures Valid()
      ensures (knownSfx == old(knownSfx) || fresh(knownSfx)) && (fmodSounds == old(fmodSounds) || fresh(fmodSounds))
      ensures |name| >= MaxQPath ==>
                r == Failure(NameTooLong) && Names() == old(Names()) && Sounds() == old(Sounds())
                && maxSfx == old(maxSfx)
      ensures |name| < MaxQPath && name in old(Names()) ==>
                r.Success? && r.value < |old(Names())| && old(Names())[r.value] == name
                && Names() == old(Names()) && Sounds() == old(Sounds()) && maxSfx == old(maxSfx)
      ensures |name| < MaxQPath && name !in old(Names()) && old(numSfx) == old(maxSfx)
              && old(maxSfx) + SfxGrow >= IntMax ==>
                r == Failure(TableOverflow) && Names() == old(Names()) && Sounds() == old(Sounds())
                && maxSfx == old(maxSfx)
      ensures |name| < MaxQPath && name !in old(Names())
              && (old(numSfx) < old(maxSfx) || old(maxSfx) + SfxGrow < IntMax) ==>
                r == Success(old(numSfx)) && Names() == old(Names()) + [name]
                && Sounds() == old(Sounds()) + [Unloaded]
                && maxSfx == (if old(numSfx) == old(maxSfx) then old(maxSfx) + SfxGrow else old(maxSfx))
    {
      if |name| >= MaxQPath {
        return Failure(NameTooLong);
      }
      var found := Lookup(name);
      if found.Some? {
        return Success(found.value);
      }
      if numSfx >= maxSfx {
        var ok := GrowSfxArrays();
        if !ok {
          return Failure(TableOverflow);
        }
      }
      Register(name);
      return Success(numSfx - 1);
    }

    /** The append of S_FindName, into a table with room for it. */
    method Register(name: string)
      requires Valid() && numSfx < maxSfx && name !in Names() && |name| < MaxQPath
      modifies this`numSfx, knownSfx, fmodSounds
      ensures Valid() && numSfx == old(numSfx) + 1
      ensures Names() == old(Names()) + [name] && Sounds() == old(Sounds()) + [Unloaded]
    {
      ghost var names, sounds := Names(), Sounds();
      knownSfx[numSfx] := name;
      fmodSounds[numSfx] := Unloaded;
      numSfx := numSfx + 1;
      assert Names() == names + [name];
      assert Sounds() == sounds + [Unloaded];
      AppendKeepsNamesOk(names, name);
    }

    /** S_TouchSound: the name is registered as S_FindName does, and nothing
        is loaded. */
    method TouchSound(name: string) returns (fatal: Option<Fatal>)
      requires Valid()
      modifies this`knownSfx, this`fmodSounds, this`maxSfx, this`numSfx, knownSfx, fmodSounds
      ensures Valid()
      ensures fatal.None? ==> name in Names()
      ensures fatal.None? && name in old(Names()) ==> Names() == old(Names()) && Sounds() == old(Sounds())
      ensures fatal.None? && name !in old(Names()) ==>
                Names() == old(Names()) + [name] && Sounds() == old(Sounds()) + [Unloaded]
      ensures fatal.Some? ==> Names() == old(Names()) && Sounds() == old(Sounds())
      ensures fatal == Some(NameTooLong) <==> |name| >= MaxQPath
    {
      var r := FindName(name);
      if r.Failure? {
        return Some(r.error);
      }
      return None;
    }

    /** S_Init's two ambient sounds, precached as S_PrecacheSound does: water
        for the first ambient, wind for the second. */
    method PrecacheAmbients(noSound: bool, precache: bool, assets: string -> AssetLoad) returns (fatal: Option<Fatal>)
      requires Valid()
      modifies this`knownSfx, this`fmodSounds, this`maxSfx, this`numSfx, knownSfx, fmodSounds, ambientSfx
      ensures Valid()
      ensures fatal.None? && noSound ==> ambientSfx[0].None? && ambientSfx[1].None?
      ensures fatal.None? && !noSound ==>
                ambientSfx[0].Some? && Names()[ambientSfx[0].value] == WaterSound
                && ambientSfx[1].Some? && Names()[ambientSfx[1].value] == SkySound
      ensures ambientSfx[2..] == old(ambientSfx[2..])
    {
      fatal := PrecacheAmbient(0, WaterSound, noSound, precache, assets);
      if fatal.None? {
        ghost var names := Names();
        ghost var water := ambientSfx[0];
        fatal := PrecacheAmbient(1, SkySound, noSound, precache, assets);
        assert ambientSfx[0] == water;
        assert fatal.None? && water.Some? ==> Names()[water.value] == names[water.value];
      }
    }

    /** One ambient of S_Init: the sound registered for name, stored in
        ambient_sfx[i]; a fatal error stores nothing. */
    method PrecacheAmbient(i: nat, name: string, noSound: bool, precache: bool, assets: string -> AssetLoad)
      returns (fatal: Option<Fatal>)
      requires Valid() && i < NumAmbients
      modifies this`knownSfx, this`fmodSounds, this`maxSfx, this`numSfx, knownSfx, fmodSounds, ambientSfx
      ensures Valid()
      ensures (knownSfx == old(knownSfx) || fresh(knownSfx)) && (fmodSounds == old(fmodSounds) || fresh(fmodSounds))
      ensures old(Names()) <= Names()
      ensures fatal.Some? ==> ambientSfx[..] == old(ambientSfx[..])
      ensures fatal.None? ==> ambientSfx[..] == old(ambientSfx[..])[i := ambientSfx[i]]
      ensures fatal.None? && noSound ==> ambientSfx[i].None?
      ensures fatal.None? && !noSound ==> ambientSfx[i].Some? && Names()[ambientSfx[i].value] == name
    {
      var r := PrecacheSound(name, noSound, precache, assets);
      if r.Success? {
        SetAmbientSfx(i, r.value);
        fatal := None;
      } else {
        fatal := Some(r.error);
      }
    }

    /** The assignment to ambient_sfx[i] of a registered sound, or of none. */
    method SetAmbientSfx(i: nat, sfx: Option<nat>)
      requires Valid() && i < NumAmbients && (sfx.Some? ==> sfx.value < numSfx)
      modifies ambientSfx
      ensures Valid() && ambientSfx[..] == old(ambientSfx[..])[i := sfx]
    {
      ambientSfx[i] := sfx;
    }

    /** FMOD_LoadSfx: the sound of a registered entry, created at most once.
        An attempt, successful or not, is remembered; a missing or refused
        asset leaves no sound. */
    method LoadSfx(sfx: Option<int>, assets: string -> AssetLoad) returns (snd: Option<SoundObj>)
      requires knownSfx.Length == maxSfx && fmodSounds.Length == maxSfx
      modifies fmodSounds
      ensures sfx.None? || SfxIndex(sfx.value) < 0 ==> snd.None? && fmodSounds[..] == old(fmodSounds[..])
      ensures sfx.Some? && SfxIndex(sfx.value) >= 0 ==>
                snd == ExpectedLoad(old(fmodSounds[sfx.value]), assets(SoundPath(knownSfx[sfx.value])))
                && fmodSounds[..] == old(fmodSounds[..])[sfx.value := FmodSfx(snd, true)]
    {
      if sfx.None? {
        return None;
      }
      var idx := SfxIndex(sfx.value);
      if idx < 0 {
        return None;
      }
      if fmodSounds[idx].loaded {
        return fmodSounds[idx].sound;
      }
      var data := assets(SoundPath(knownSfx[idx]));
      if data.Missing? {
        fmodSounds[idx] := FmodSfx(None, true);
        return None;
      }
      if data.Decoded? {
        fmodSounds[idx] := fmodSounds[idx].(sound := Some(data.sound));
      } else {
        fmodSounds[idx] := fmodSounds[idx].(sound := None);
      }
      fmodSounds[idx] := fmodSounds[idx].(loaded := true);
      return fmodSounds[idx].sound;
    }

    /** S_PrecacheSound: nothing with s_nosound set; otherwise the registered
        index, loaded at once when s_precache is set. */
    method PrecacheSound(name: string, noSound: bool, precache: bool, assets: string -> AssetLoad)
      returns (r: Result<Option<nat>, Fatal>)
      requires Valid()
      modifies this`knownSfx, this`fmodSounds, this`maxSfx, this`numSfx, knownSfx, fmodSounds
      ensures Valid()
      ensures (knownSfx == old(knownSfx) || fresh(knownSfx)) && (fmodSounds == old(fmodSounds) || fresh(fmodSounds))
      ensures noSound ==> r == Success(None) && Names() == old(Names()) && Sounds() == old(Sounds())
      ensures r.Failure? ==> Names() == old(Names())
      ensures r.Failure? ==> Sounds() == old(Sounds())
      ensures !noSound && r.Success? ==>
                r.value.Some? && r.value.value < numSfx && Names()[r.value.value] == name
                && (precache ==> fmodSounds[r.value.value].loaded)
      ensures Names() == old(Names()) || Names() == old(Names()) + [name]
      ensures !noSound && r.Success? ==>
                var base := if name in old(Names()) then old(Sounds()) else old(Sounds()) + [Unloaded];
                var k := r.value.value;
                k < |base|
                && Sounds() == if precache then base[k := FmodSfx(ExpectedLoad(base[k], assets(SoundPath(name))), true)]
                               else base
    {
      if noSound {
        return Success(None);
      }
      var f := FindName(name);
      if f.Failure? {
        return Failure(f.error);
      }
      if precache {
        Preload(f.value, assets);
      }
      return Success(Some(f.value));
    }

    /** The load S_PrecacheSound asks for when precaching is on: the entry is
        marked as attempted and nothing registered changes. */
    method Preload(idx: nat, assets: string -> AssetLoad)
      requires Valid() && idx < numSfx
      modifies fmodSounds
      ensures Valid() && Names() == old(Names()) && fmodSounds[idx].loaded
      ensures fmodSounds[..] == old(fmodSounds[..])[idx := FmodSfx(ExpectedLoad(old(fmodSounds[idx]),
                                                                 assets(SoundPath(knownSfx[idx]))), true)]
      ensures Sounds() == old(Sounds())[idx := FmodSfx(ExpectedLoad(old(Sounds())[idx],
                                                       assets(SoundPath(Names()[idx]))), true)]
    {
      var _ := LoadSfx(Some(idx), assets);
    }

    // ------------------------------------------------------------------
    // Channel pool

    /** FindChannel: the lowest slot holding a playing channel for
        (entnum, entchannel). Every matching slot scanned before it whose
        channel has finished is freed on the way; nothing else changes. */
    method FindChannel(entnum: int, entchannel: int) returns (r: Option<nat>)
      modifies channels
      ensures r == FirstLive(old(channels[..]), status, entnum, entchannel)
      ensures forall j :: 0 <= j < channels.Length ==>
                channels[j] == if (r.None? || j < r.value) && Matches(old(channels[j]), entnum, entchannel)
                               then Freed(old(channels[j])) else old(channels[j])
      ensures r.None? ==> FreedAllMatching(old(channels[..]), channels[..], entnum, entchannel)
      ensures r.Some? ==> channels[r.value] == old(channels[r.value])
      ensures FreedSomeMatching(old(channels[..]), channels[..], entnum, entchannel)
      ensures forall j :: 0 <= j < channels.Length && channels[j] != old(channels[j]) ==>
                old(channels[j]).channel.Some? && !ChannelIsPlaying(status, old(channels[j]).channel)
      ensures Occupied(channels[..]) <= Occupied(old(channels[..]))
    {
      r := None;
      var i := 0;
      while i < channels.Length
        invariant 0 <= i <= channels.Length
        invariant forall j :: 0 <= j < i ==> !Live(old(channels[j]), status, entnum, entchannel)
        invariant forall j :: 0 <= j < channels.Length ==>
                    channels[j] == if j < i && Matches(old(channels[j]), entnum, entchannel)
                                   then Freed(old(channels[j])) else old(channels[j])
      {
        var s := channels[i];
        if s.channel.None? || s.entnum != entnum || (entchannel != -1 && s.entchannel != entchannel) {
          i := i + 1;
        } else if !ChannelIsPlaying(status, s.channel) {
          channels[i] := ReleaseSpatializer(s);
          channels[i] := channels[i].(channel := None);
          i := i + 1;
        } else {
          r := Some(i);
          break;
        }
      }
    }

    /** AllocChannel: the slot ChooseSlot picks. A finished or virtual slot is
        zeroed, and a virtual one is stopped first. */
    method AllocChannel() returns (r: Option<nat>)
      modifies channels, this`status
      ensures var a := ChooseSlot(old(channels[..]), old(status));
              r == (if a.Full? then None else Some(a.i))
              && (a.TakeFree? || a.Full? ==> channels[..] == old(channels[..]) && status == old(status))
              && (a.TakeStale? ==> channels[..] == old(channels[..])[a.i := ZeroSlot] && status == old(status))
              && (a.Steal? ==> channels[..] == old(channels[..])[a.i := ZeroSlot]
                               && status == Stop(old(status), old(channels[a.i]).channel.value))
    {
      ChooseSlotSpec(channels[..], status);
      var i := 0;
      while i < channels.Length
        invariant 0 <= i <= channels.Length
        invariant forall j :: 0 <= j < i ==> !Reclaimable(channels[j], status)
      {
        if channels[i].channel.None? {
          return Some(i);
        }
        if !ChannelIsPlaying(status, channels[i].channel) {
          channels[i] := ReleaseSpatializer(channels[i]);
          channels[i] := ZeroSlot;
          return Some(i);
        }
        i := i + 1;
      }
      i := 0;
      while i < channels.Length
        invariant 0 <= i <= channels.Length
        invariant forall j :: 0 <= j < channels.Length ==> !Reclaimable(channels[j], status)
        invariant forall j :: 0 <= j < i ==> !Stealable(channels[j], status)
      {
        if channels[i].channel.Some? && ChannelIsVirtual(status, channels[i].channel) {
          status := Stop(status, channels[i].channel.value);
          channels[i] := ReleaseSpatializer(channels[i]);
          channels[i] := ZeroSlot;
          return Some(i);
        }
        i := i + 1;
      }
      return None;
    }

    /** S_StopSound: every slot tracked for (entnum, entchannel) is stopped
        and freed; every other slot and every other voice is untouched. */
    method StopSound(entnum: int, entchannel: int)
      requires Valid()
      modifies channels, this`status
      ensures Valid()
      ensures channels[..] == FreeMatching(old(channels[..]), entnum, entchannel)
      ensures status == StopSet(old(status), MatchedHandles(old(channels[..]), entnum, entchannel))
    {
      StopMatching(entnum, entchannel);
      FreeMatchingKeepsHandles(old(channels[..]), ambientChannels[..], old(status), status, dspParams.Keys, maxSfx,
                               entnum, entchannel);
    }

    /** The loop of S_StopSound. */
    method StopMatching(entnum: int, entchannel: int)
      modifies channels, this`status
      ensures channels[..] == FreeMatching(old(channels[..]), entnum, entchannel)
      ensures status == StopSet(old(status), MatchedHandles(old(channels[..]), entnum, entchannel))
    {
      ghost var c0 := channels[..];
      ghost var st0 := status;
      var i := 0;
      StopSetEmpty(status);
      assert MatchedHandles(c0[..0], entnum, entchannel) == {};
      while i < channels.Length
        invariant 0 <= i <= channels.Length
        invariant forall j :: 0 <= j < channels.Length ==>
                    channels[j] == if j < i && Matches(c0[j], entnum, entchannel) then Freed(c0[j]) else c0[j]
        invariant status == StopSet(st0, MatchedHandles(c0[..i], entnum, entchannel))
      {
        MatchedHandlesPrefix(c0, i, entnum, entchannel);
        var s := channels[i];
        if s.channel.Some? && s.entnum == entnum && (entchannel == -1 || s.entchannel == entchannel) {
          StopSetAdd(st0, MatchedHandles(c0[..i], entnum, entchannel), s.channel.value);
          status := Stop(status, s.channel.value);
          channels[i] := ReleaseSpatializer(s);
          channels[i] := channels[i].(channel := None);
        }
        i := i + 1;
      }
      assert c0[..i] == c0;
      assert channels[..] == FreeMatching(c0, entnum, entchannel);
    }

    /** StopAllTrackedChannels: every tracked voice is stopped and every slot
        zeroed. */
    method StopAllTrackedChannels()
      requires Valid()
      modifies channels, this`status
      ensures Valid()
      ensures forall j :: 0 <= j < channels.Length ==> channels[j] == ZeroSlot
      ensures status == StopSet(old(status), TrackedHandles(old(channels[..])))
    {
      StopTracked();
      ClearSlots();
      ZeroedKeepsHandles(old(channels[..]), channels[..], ambientChannels[..], old(status), status,
                         dspParams.Keys, maxSfx);
    }

    /** The loop of StopAllTrackedChannels: each tracked voice is stopped and
        each spatializer released. */
    method StopTracked()
      modifies channels, this`status
      ensures forall j :: 0 <= j < channels.Length ==> channels[j] == ReleaseSpatializer(old(channels[j]))
      ensures status == StopSet(old(status), TrackedHandles(old(channels[..])))
    {
      var i := 0;
      StopSetEmpty(status);
      assert TrackedHandles(old(channels[..])[..0]) == {};
      while i < channels.Length
        invariant 0 <= i <= channels.Length
        invariant forall j :: 0 <= j < channels.Length ==>
                    channels[j] == if j < i then ReleaseSpatializer(old(channels[j])) else old(channels[j])
        invariant status == StopSet(old(status), TrackedHandles(old(channels[..])[..i]))
      {
        TrackedHandlesPrefix(old(channels[..]), i);
        if channels[i].channel.Some? {
          StopSetAdd(old(status), TrackedHandles(old(channels[..])[..i]), channels[i].channel.value);
          status := Stop(status, channels[i].channel.value);
        }
        channels[i] := ReleaseSpatializer(channels[i]);
        i := i + 1;
      }
      assert old(channels[..])[..i] == old(channels[..]);
    }

    /** The memset of fmod_channels. */
    method ClearSlots()
      modifies channels
      ensures forall j :: 0 <= j < channels.Length ==> channels[j] == ZeroSlot
    {
      var i := 0;
      while i < channels.Length
        invariant 0 <= i <= channels.Length
        invariant forall j :: 0 <= j < i ==> channels[j] == ZeroSlot
      {
        channels[i] := ZeroSlot;
        i := i + 1;
      }
    }

    /** StopAmbientChannels: every ambient loop is stopped and forgotten, and
        every ambient volume is 0. */
    method StopAmbientChannels()
      requires Valid()
      modifies ambientChannels, ambientVol, this`status
      ensures Valid()
      ensures forall i :: 0 <= i < NumAmbients ==> ambientChannels[i].None? && ambientVol[i] == 0.0
      ensures status == StopSet(old(status), AmbientHandles(old(ambientChannels[..])))
    {
      StopAmbientLoops();
      AmbientClearedKeepsHandles(channels[..], old(ambientChannels[..]), ambientChannels[..], old(status), status,
                                 dspParams.Keys, maxSfx);
    }

    /** The loop of StopAmbientChannels. */
    method StopAmbientLoops()
      requires ambientChannels.Length == NumAmbients && ambientVol.Length == NumAmbients
      modifies ambientChannels, ambientVol, this`status
      ensures forall i :: 0 <= i < NumAmbients ==> ambientChannels[i].None? && ambientVol[i] == 0.0
      ensures status == StopSet(old(status), AmbientHandles(old(ambientChannels[..])))
    {
      var i := 0;
      StopSetEmpty(status);
      assert AmbientHandles(old(ambientChannels[..])[..0]) == {};
      while i < NumAmbients
        invariant 0 <= i <= NumAmbients
        invariant forall j :: 0 <= j < NumAmbients ==>
                    ambientChannels[j] == if j < i then None else old(ambientChannels[j])
        invariant forall j :: 0 <= j < i ==> ambientVol[j] == 0.0
        invariant status == StopSet(old(status), AmbientHandles(old(ambientChannels[..])[..i]))
      {
        AmbientHandlesPrefix(old(ambientChannels[..]), i);
        if ambientChannels[i].Some? {
          StopSetAdd(old(status), AmbientHandles(old(ambientChannels[..])[..i]), ambientChannels[i].value);
          status := Stop(status, ambientChannels[i].value);
          ambientChannels[i] := None;
        }
        ambientVol[i] := 0.0;
        i := i + 1;
      }
      assert old(ambientChannels[..])[..i] == old(ambientChannels[..]);
    }

    /** S_StopAllSounds: everything tracked and every ambient loop is stopped;
        nothing is left in the pool. */
    method StopAllSounds()
      requires Valid()
      modifies channels, ambientChannels, ambientVol, this`status
      ensures Valid()
      ensures forall j :: 0 <= j < channels.Length ==> channels[j] == ZeroSlot
      ensures forall i :: 0 <= i < NumAmbients ==> ambientChannels[i].None? && ambientVol[i] == 0.0
      ensures status == StopSet(old(status), TrackedHandles(old(channels[..])) + AmbientHandles(old(ambientChannels[..])))
    {
      StopAllTrackedChannels();
      StopAmbientChannels();
      StopSetCompose(old(status), TrackedHandles(old(channels[..])), AmbientHandles(old(ambientChannels[..])));
    }

    /** Atmoky_AttachSpatializer for slot k, whose channel was just started:
        the effect Attach describes. */
    method AttachSpatializer(k: nat, origin: Vec3, dsp: Option<Dsp>, listener: Listener)
      requires k < channels.Length && channels[k].channel.Some?
      modifies channels, this`status, this`dspParams
      ensures State() == Attach(old(State()), k, origin, dsp, listener, atmokyAvailable)
    {
      if !atmokyAvailable {
        return;
      }
      status := SetModeFromRead2D(status, channels[k].channel.value);
      if dsp.None? {
        return;
      }
      channels[k] := channels[k].(spatializer := dsp);
      dspParams := dspParams[dsp.value := SpatialAttributes(origin, Zero, listener)];
    }

    /** FMOD_LoadSfx would hand back a sound for sfx. */
    ghost predicate WouldLoad(sfx: Option<int>, assets: string -> AssetLoad)
      reads this, knownSfx, fmodSounds
    {
      sfx.Some? && 0 <= sfx.value < maxSfx && sfx.value < knownSfx.Length && sfx.value < fmodSounds.Length
      && ExpectedLoad(fmodSounds[sfx.value], assets(SoundPath(knownSfx[sfx.value]))).Some?
    }

    /** The stop loop of S_StartSound: as long as FindChannel finds a playing
        channel for (entnum, entchannel), that channel is stopped and its slot
        freed. Since each search also frees the finished matches it passes,
        the loop ends with exactly the effect of S_StopSound. */
    method StopEntityChannel(entnum: int, entchannel: int)
      modifies channels, this`status
      ensures channels[..] == FreeMatching(old(channels[..]), entnum, entchannel)
      ensures status == StopSet(old(status), MatchedHandles(old(channels[..]), entnum, entchannel))
    {
      ghost var stopped: set<Channel> := {};
      StopSetEmpty(status);
      while true
        invariant FreedSomeMatching(old(channels[..]), channels[..], entnum, entchannel)
        invariant StoppedOrFinished(old(channels[..]), channels[..], old(status), stopped)
        invariant stopped <= MatchedHandles(old(channels[..]), entnum, entchannel)
        invariant status == StopSet(old(status), stopped)
        decreases Occupied(channels[..])
      {
        ghost var before := channels[..];
        var f := FindChannel(entnum, entchannel);
        ReapKeepsStoppedOrFinished(old(channels[..]), before, channels[..], old(status), stopped);
        if f.None? {
          FreedSomeThenAll(old(channels[..]), before, channels[..], entnum, entchannel);
          StoppedAllMatching(old(channels[..]), channels[..], old(status), stopped, entnum, entchannel);
          FreedAllIsFreeMatching(old(channels[..]), channels[..], entnum, entchannel);
          break;
        }
        ghost var found := channels[..];
        FreedSomeMatchingTrans(old(channels[..]), before, found, entnum, entchannel);
        var k := f.value;
        assert found[k] == before[k] && Matches(before[k], entnum, entchannel);
        assert before[k] == old(channels[..])[k];
        var h := channels[k].channel.value;
        StopSetAdd(old(status), stopped, h);
        StopKeepsStoppedOrFinished(old(channels[..]), found, old(status), stopped, k, Freed(found[k]));
        stopped := stopped + {h};
        ReleaseFound(k);
        FreedSomeMatchingTrans(old(channels[..]), found, channels[..], entnum, entchannel);
        assert k in Occupied(found);
      }
    }

    /** The body of that loop: slot k's voice is stopped and the slot freed. */
    method ReleaseFound(k: nat)
      requires k < channels.Length && channels[k].channel.Some?
      modifies channels, this`status
      ensures channels[..] == old(channels[..])[k := Freed(old(channels[k]))]
      ensures status == Stop(old(status), old(channels[k]).channel.value)
      ensures Occupied(channels[..]) == Occupied(old(channels[..])) - {k}
      ensures forall e, c :: Matches(old(channels[k]), e, c) ==> FreedSomeMatching(old(channels[..]), channels[..], e, c)
    {
      status := Stop(status, channels[k].channel.value);
      channels[k] := ReleaseSpatializer(channels[k]);
      channels[k] := channels[k].(channel := None);
    }

    // ------------------------------------------------------------------
    // Starting sounds

    /** AllocChannel followed by the filling in of the slot it returns with the
        slot s of a new voice (the memset and field stores of S_StartSound and
        S_StaticSound). */
    method TrackNew(s: Slot) returns (k: Option<nat>)
      modifies channels, this`status
      ensures k == AllocIndex(old(channels[..]), old(status))
      ensures State() == Track(old(State()), s)
    {
      k := AllocChannel();
      if k.Some? {
        channels[k.value] := s;
      }
    }

    /** The mode branch and the volume of S_StartSound for the voice h, held by
        slot k when k is present: the effect Configure describes. */
    method ConfigureStarted(h: Channel, k: Option<nat>, entnum: int, origin: Vec3, fvol: real, attenuation: real,
                            playerEnt: int, dsp: Option<Dsp>, listener: Listener)
      requires k.Some? ==> k.value < channels.Length && channels[k.value].channel == Some(h)
      modifies channels, this`status, this`dspParams
      ensures State() == Configure(old(State()), h, k, entnum, origin, fvol, attenuation, playerEnt, dsp, listener,
                                   atmokyAvailable)
    {
      if Flat(entnum, attenuation, playerEnt) {
        status := SetMode2D(status, h);
      } else if atmokyAvailable && k.Some? {
        AttachSpatializer(k.value, origin, dsp, listener);
      } else {
        status := Set3DAttributes(status, h, QVec(origin), Zero);
        status := Set3DMinMaxDistance(status, h, Min3DDist, MaxDistance(attenuation));
      }
      status := SetVolume(status, h, fvol);
    }

    /** The stop loop of S_StartSound, run for a non-zero entchannel only. */
    method StopForStart(entnum: int, entchannel: int)
      modifies channels, this`status
      ensures State() == StopFor(old(State()), entnum, entchannel)
    {
      if entchannel != 0 {
        StopEntityChannel(entnum, entchannel);
      }
    }

    /** FMOD_System_PlaySound has handed out h: the new voice joins the mixer,
        takes a slot if AllocChannel hands one out, and is configured. */
    method StartPlayed(h: Channel, entnum: int, entchannel: int, sfx: nat, origin: Vec3, fvol: real,
                       attenuation: real, w: World, dsp: Option<Dsp>, listener: Listener)
      modifies channels, this`status, this`dspParams
      ensures State() == Started(old(State()), h, entnum, entchannel, sfx, origin, fvol, attenuation, w, dsp,
                                 listener, atmokyAvailable)
    {
      status := status[h := PlayedVoice(!atmokyAvailable)];
      var k := TrackNew(StartedSlot(h, entnum, entchannel, sfx, origin, w));
      ConfigureStarted(h, k, entnum, origin, fvol, attenuation, w.playerEnt, dsp, listener);
    }

    /** S_StartSound. Nothing happens for a null sound or with s_nosound set,
        and nothing but the load attempt when the sound does not load;
        otherwise the pool and the mixer change as StartPool says. played is
        the handle FMOD_System_PlaySound hands out (None when it fails) and
        dsp the spatializer the mixer would create. */
    method StartSound(entnum: int, entchannel: int, sfx: Option<int>, origin: Vec3, fvol: real, attenuation: real,
                      noSound: bool, w: World, assets: string -> AssetLoad,
                      played: Option<Channel>, dsp: Option<Dsp>, listener: Listener)
      requires Valid()
      requires played.Some? ==> played.value !in status
      requires dsp.Some? ==> DspUnheld(channels[..], dsp.value)
      modifies channels, fmodSounds, this`status, this`dspParams
      ensures Valid()
      ensures sfx.None? || noSound ==> fmodSounds[..] == old(fmodSounds[..])
      ensures sfx.Some? && !noSound && SfxIndex(sfx.value) >= 0 ==>
                fmodSounds[..] == old(fmodSounds[..])[sfx.value := FmodSfx(ExpectedLoad(old(fmodSounds[sfx.value]),
                                                        assets(SoundPath(knownSfx[sfx.value]))), true)]
      ensures State() == if !noSound && old(WouldLoad(sfx, assets))
                         then StartPool(old(State()), entnum, entchannel, sfx.value, origin, fvol, attenuation, w,
                                        played, dsp, listener, atmokyAvailable)
                         else old(State())
    {
      if sfx.Some? && !noSound {
        var snd := LoadSfx(sfx, assets);
        if snd.Some? {
          StartLoaded(entnum, entchannel, sfx.value, origin, fvol, attenuation, w, played, dsp, listener);
        }
      }
    }

    /** The part of S_StartSound after the sound has loaded. */
    method StartLoaded(entnum: int, entchannel: int, sfx: nat, origin: Vec3, fvol: real, attenuation: real,
                       w: World, played: Option<Channel>, dsp: Option<Dsp>, listener: Listener)
      requires Valid() && sfx < maxSfx
      requires played.Some? ==> played.value !in status
      requires dsp.Some? ==> DspUnheld(channels[..], dsp.value)
      modifies channels, this`status, this`dspParams
      ensures Valid()
      ensures State() == StartPool(old(State()), entnum, entchannel, sfx, origin, fvol, attenuation, w,
                                   played, dsp, listener, atmokyAvailable)
    {
      StartPoolKeepsHandles(State(), ambientChannels[..], maxSfx, entnum, entchannel, sfx, origin, fvol,
                            attenuation, w, played, dsp, listener, atmokyAvailable);
      StartInPool(entnum, entchannel, sfx, origin, fvol, attenuation, w, played, dsp, listener);
    }

    /** The steps of S_StartSound once the sound has loaded: the stop rule,
        then the new voice if the mixer hands one out. */
    method StartInPool(entnum: int, entchannel: int, sfx: nat, origin: Vec3, fvol: real, attenuation: real,
                       w: World, played: Option<Channel>, dsp: Option<Dsp>, listener: Listener)
      modifies channels, this`status, this`dspParams
      ensures State() == StartPool(old(State()), entnum, entchannel, sfx, origin, fvol, attenuation, w,
                                   played, dsp, listener, atmokyAvailable)
    {
      StopForStart(entnum, entchannel);
      if played.Some? {
        StartPlayed(played.value, entnum, entchannel, sfx, origin, fvol, attenuation, w, dsp, listener);
      }
    }

    /** S_StaticSound: a looping sound at a fixed place, started even with
        s_nosound set. Nothing happens for a null sound, nothing but the load
        attempt when the sound does not load or the mixer does not start it;
        otherwise the pool and the mixer change as StaticStarted says. */
    method StaticSound(sfx: Option<int>, origin: Vec3, vol: real, attenuation: real, assets: string -> AssetLoad,
                       played: Option<Channel>, dsp: Option<Dsp>, listener: Listener)
      requires Valid()
      requires played.Some? ==> played.value !in status
      requires dsp.Some? ==> DspUnheld(channels[..], dsp.value)
      modifies channels, fmodSounds, this`status, this`dspParams
      ensures Valid()
      ensures sfx.None? ==> fmodSounds[..] == old(fmodSounds[..])
      ensures sfx.Some? && SfxIndex(sfx.value) >= 0 ==>
                fmodSounds[..] == old(fmodSounds[..])[sfx.value := FmodSfx(ExpectedLoad(old(fmodSounds[sfx.value]),
                                                        assets(SoundPath(knownSfx[sfx.value]))), true)]
      ensures State() == if old(WouldLoad(sfx, assets)) && played.Some?
                         then StaticStarted(old(State()), played.value, sfx.value, origin, vol, attenuation, dsp,
                                            listener, atmokyAvailable)
                         else old(State())
    {
      if sfx.Some? {
        var snd := LoadSfx(sfx, assets);
        if snd.Some? && played.Some? {
          StaticLoaded(played.value, sfx.value, origin, vol, attenuation, dsp, listener);
        }
      }
    }

    /** The part of S_StaticSound after FMOD_System_PlaySound has handed out h
        for a sound that has loaded. */
    method StaticLoaded(h: Channel, sfx: nat, origin: Vec3, vol: real, attenuation: real,
                        dsp: Option<Dsp>, listener: Listener)
      requires Valid() && h !in status && sfx < maxSfx
      requires dsp.Some? ==> DspUnheld(channels[..], dsp.value)
      modifies channels, this`status, this`dspParams
      ensures Valid()
      ensures State() == StaticStarted(old(State()), h, sfx, origin, vol, attenuation, dsp, listener, atmokyAvailable)
    {
      StaticStartedKeepsHandles(State(), ambientChannels[..], maxSfx, h, sfx, origin, vol, attenuation, dsp, listener,
                                atmokyAvailable);
      if atmokyAvailable {
        StaticSpatialize(h, sfx, origin, vol, dsp, listener);
      } else {
        StaticPlain(h, sfx, origin, vol, attenuation);
      }
    }

    /** The Atmoky branch of S_StaticSound: the effect StaticSpatialized
        describes. */
    method StaticSpatialize(h: Channel, sfx: nat, origin: Vec3, vol: real, dsp: Option<Dsp>, listener: Listener)
      requires h !in status && atmokyAvailable
      modifies channels, this`status, this`dspParams
      ensures State() == StaticSpatialized(old(State()), h, sfx, origin, vol, dsp, listener)
    {
      StaticSetup(status, h, origin, vol, 0.0);
      status := status[h := PlayedVoice(false)];
      status := SetMode(status, h, false, true);
      var k := TrackNew(StaticSlot(h, sfx, origin, true));
      if k.Some? {
        AttachSpatializer(k.value, origin, dsp, listener);
      }
      status := SetVolume(status, h, vol / 255.0);
    }

    /** The branch of S_StaticSound without Atmoky: the voice is set up as a 3D
        loop and then tracked. */
    method StaticPlain(h: Channel, sfx: nat, origin: Vec3, vol: real, attenuation: real)
      requires h !in status
      modifies channels, this`status
      ensures State() == Track(old(State()).(st := old(status)[h := StaticVoice(origin, vol, attenuation, false)]),
                               StaticSlot(h, sfx, origin, false))
    {
      StaticSetup(status, h, origin, vol, attenuation);
      status := status[h := PlayedVoice(true)];
      status := SetMode(status, h, true, true);
      status := Set3DAttributes(status, h, QVec(origin), Zero);
      status := Set3DMinMaxDistance(status, h, Min3DDist, StaticMaxDistance(attenuation));
      status := SetVolume(status, h, vol / 255.0);
      var _ := TrackNew(StaticSlot(h, sfx, origin, false));
    }
 

    // ------------------------------------------------------------------
    // Per-frame updates

    /** The loop of S_UpdateMovingSounds. */
    method MoveSounds(w: World, sqrt: real -> real)
      requires IsSqrt(sqrt)
      modifies channels, this`status
      ensures Moved(channels[..], status) == MoveSweep(old(channels[..]), old(status), w, sqrt, 0)
    {
      var i := 0;
      while i < channels.Length
        invariant 0 <= i <= channels.Length
        invariant MoveSweep(channels[..], status, w, sqrt, i) == MoveSweep(old(channels[..]), old(status), w, sqrt, 0)
      {
        var s := channels[i];
        ghost var before, st0 := channels[..], status;
        ghost var o := MoveStep(s, status, w, sqrt);
        if s.channel.None? || s.spatializer.Some? {
        } else if !ChannelIsPlaying(status, s.channel) {
          channels[i] := s.(channel := None);
        } else if s.isStatic || s.entnum <= 0 || s.entnum >= w.maxEdicts || s.entnum == w.playerEnt {
        } else {
          var h := s.channel.value;
          if status[h].getModeFails {
            return;
          }
          if status[h].is3D {
            var cur := Add(w.entityOrigin(s.entnum), s.originOffset);
            var vel := EstimateVelocity(s.havePrevOrigin, w.frametime, cur, s.prevOrigin, sqrt);
            channels[i] := s.(origin := cur, prevOrigin := cur, havePrevOrigin := true);
            if status[h].set3DFails {
              return;
            }
            status := Set3DAttributes(status, h, QVec(cur), QVec(vel));
          }
        }
        assert !o.abort && channels[..] == before[i := o.slot];
        assert status == if o.push.Some? then Set3DAttributes(st0, s.channel.value, o.push.value.position,
                                                              o.push.value.velocity)
                         else st0;
        i := i + 1;
      }
    }

    /** S_UpdateMovingSounds: the effect MoveSweep describes. */
    method UpdateMovingSounds(w: World, sqrt: real -> real)
      requires Valid() && IsSqrt(sqrt)
      modifies channels, this`status
      ensures Valid()
      ensures Moved(channels[..], status) == MoveSweep(old(channels[..]), old(status), w, sqrt, 0)
    {
      MoveSweepKeepsHandles(channels[..], ambientChannels[..], status, dspParams.Keys, maxSfx, w, sqrt);
      MoveSounds(w, sqrt);
    }

    /** The loop of Atmoky_UpdateSpatializers. */
    method SpatializeSlots(w: World, listener: Listener, sqrt: real -> real)
      requires IsSqrt(sqrt)
      modifies channels, this`dspParams
      ensures Spatialized(channels[..], dspParams)
              == SpatialUpdate(atmokyAvailable, old(channels[..]), status, old(dspParams), w, listener, sqrt)
    {
      if !atmokyAvailable {
        return;
      }
      var i := 0;
      while i < channels.Length
        invariant 0 <= i <= channels.Length
        invariant SpatialSweep(channels[..], status, dspParams, w, listener, sqrt, i)
                  == SpatialSweep(old(channels[..]), status, old(dspParams), w, listener, sqrt, 0)
      {
        var s := channels[i];
        ghost var before, dsps0 := channels[..], dspParams;
        ghost var o := SpatialStep(s, status, w, listener, sqrt);
        if s.channel.None? || s.spatializer.None? {
        } else if !ChannelIsPlaying(status, s.channel) {
          channels[i] := ReleaseSpatializer(s);
          channels[i] := channels[i].(channel := None);
        } else {
          var cur := s.origin;
          if !s.isStatic && ValidEntity(s.entnum, w.maxEdicts) {
            cur := Add(w.entityOrigin(s.entnum), s.originOffset);
          }
          var vel := EstimateVelocity(s.havePrevOrigin, w.frametime, cur, s.prevOrigin, sqrt);
          channels[i] := s.(origin := cur, prevOrigin := cur, havePrevOrigin := true);
          dspParams := dspParams[s.spatializer.value := SpatialAttributes(cur, vel, listener)];
        }
        assert channels[..] == before[i := o.slot];
        assert dspParams == if o.write.Some? then dsps0[o.write.value.0 := o.write.value.1] else dsps0;
        i := i + 1;
      }
    }

    /** Atmoky_UpdateSpatializers: nothing without Atmoky, otherwise the
        effect SpatialSweep describes. */
    method UpdateSpatializers(w: World, listener: Listener, sqrt: real -> real)
      requires Valid() && IsSqrt(sqrt)
      modifies channels, this`dspParams
      ensures Valid()
      ensures Spatialized(channels[..], dspParams)
              == SpatialUpdate(atmokyAvailable, old(channels[..]), status, old(dspParams), w, listener, sqrt)
    {
      SpatialUpdateKeepsHandles(atmokyAvailable, channels[..], ambientChannels[..], status, dspParams, maxSfx, w,
                                listener, sqrt);
      SpatializeSlots(w, listener, sqrt);
    }

    /** The state of the ambient loops. */
    ghost function Ambients(): Ambient
      reads this, ambientChannels, ambientVol, fmodSounds
    {
      Ambient(ambientChannels[..], ambientVol[..], status, fmodSounds[..])
    }

    /** The silencing loop of S_UpdateAmbientSounds. */
    method SilenceAmbients()
      requires ambientChannels.Length == NumAmbients && ambientVol.Length == NumAmbients
      modifies ambientVol, this`status
      ensures ambientVol[..] == seq(NumAmbients, _ => 0.0)
      ensures status == Silenced(old(status), ambientChannels[..], 0)
    {
      var i := 0;
      while i < NumAmbients
        invariant 0 <= i <= NumAmbients
        invariant forall j :: 0 <= j < i ==> ambientVol[j] == 0.0
        invariant Silenced(status, ambientChannels[..], i) == Silenced(old(status), ambientChannels[..], 0)
      {
        if ambientChannels[i].Some? {
          status := SetVolume(status, ambientChannels[i].value, 0.0);
        }
        ambientVol[i] := 0.0;
        i := i + 1;
      }
      assert ambientVol[..] == seq(NumAmbients, _ => 0.0);
    }

    /** The fading loop of S_UpdateAmbientSounds. played holds the handle
        FMOD_System_PlaySound would hand out for each ambient (None when it
        fails). */
    method FadeAmbients(env: AmbientEnv, assets: string -> AssetLoad, played: seq<Option<Channel>>)
      requires ambientSfx.Length == NumAmbients && ambientChannels.Length == NumAmbients
      requires ambientVol.Length == NumAmbients && |played| == NumAmbients
      requires knownSfx.Length == maxSfx && fmodSounds.Length == maxSfx
      requires forall j :: 0 <= j < NumAmbients && ambientSfx[j].Some? ==> ambientSfx[j].value < maxSfx
      modifies ambientChannels, ambientVol, fmodSounds, this`status
      ensures Ambients() == AmbientSweep(old(Ambients()), ambientSfx[..], knownSfx[..], env, assets, played,
                                         atmokyAvailable, 0)
    {
      var i := 0;
      while i < NumAmbients
        invariant 0 <= i <= NumAmbients
        invariant AmbientSweep(Ambients(), ambientSfx[..], knownSfx[..], env, assets, played, atmokyAvailable, i)
                  == AmbientSweep(old(Ambients()), ambientSfx[..], knownSfx[..], env, assets, played,
                                  atmokyAvailable, 0)
      {
        FadeAmbient(i, env, assets, played[i]);
        i := i + 1;
      }
    }

    /** One iteration of the fading loop: the effect AmbientStep describes. */
    method FadeAmbient(i: nat, env: AmbientEnv, assets: string -> AssetLoad, played: Option<Channel>)
      requires ambientSfx.Length == NumAmbients && ambientChannels.Length == NumAmbients
      requires ambientVol.Length == NumAmbients && i < NumAmbients
      requires knownSfx.Length == maxSfx && fmodSounds.Length == maxSfx
      requires ambientSfx[i].Some? ==> ambientSfx[i].value < maxSfx
      modifies ambientChannels, ambientVol, fmodSounds, this`status
      ensures Ambients() == AmbientStep(old(Ambients()), i, ambientSfx[i], knownSfx[..], env, assets, played,
                                        atmokyAvailable)
    {
      if ambientSfx[i].None? {
        return;
      }
      FadeVolume(i, env);
      if ChannelIsPlaying(status, ambientChannels[i]) {
        status := SetVolume(status, ambientChannels[i].value, ambientVol[i] / 255.0);
      } else {
        RestartAmbient(i, assets, played);
      }
    }

    /** The fader of one ambient. */
    method FadeVolume(i: nat, env: AmbientEnv)
      requires ambientVol.Length == NumAmbients && i < NumAmbients
      modifies ambientVol
      ensures ambientVol[..] == old(ambientVol[..])[i := FadedVolume(old(ambientVol[i]), env, i)]
    {
      var target := env.level * env.leafLevel(i);
      if target < AmbientSnap {
        target := 0.0;
      }
      var vol := ambientVol[i];
      if vol < target {
        vol := vol + env.frametime * env.fade;
        if vol > target {
          vol := target;
        }
      } else if vol > target {
        vol := vol - env.frametime * env.fade;
        if vol < target {
          vol := target;
        }
      }
      assert target == AmbientTarget(env.level, env.leafLevel(i));
      assert vol == FadedVolume(old(ambientVol[i]), env, i);
      ambientVol[i] := vol;
    }

    /** The restart of a finished ambient loop, and its volume. */
    method RestartAmbient(i: nat, assets: string -> AssetLoad, played: Option<Channel>)
      requires ambientSfx.Length == NumAmbients && ambientChannels.Length == NumAmbients
      requires ambientVol.Length == NumAmbients && i < NumAmbients
      requires knownSfx.Length == maxSfx && fmodSounds.Length == maxSfx
      requires ambientSfx[i].Some? && ambientSfx[i].value < maxSfx
      modifies ambientChannels, fmodSounds, this`status
      ensures var idx := ambientSfx[i].value;
              var snd := ExpectedLoad(old(fmodSounds[idx]), assets(SoundPath(knownSfx[idx])));
              fmodSounds[..] == old(fmodSounds[..])[idx := FmodSfx(snd, true)]
              && (snd.None? ==> ambientChannels[..] == old(ambientChannels[..]) && status == old(status))
              && (snd.Some? && played.None? ==>
                    ambientChannels[..] == old(ambientChannels[..])[i := None] && status == old(status))
              && (snd.Some? && played.Some? ==>
                    ambientChannels[..] == old(ambientChannels[..])[i := played]
                    && status == SetVolume(AmbientVoice(old(status), played.value, atmokyAvailable), played.value,
                                           ambientVol[i] / 255.0))
    {
      var snd := LoadSfx(Some(ambientSfx[i].value), assets);
      if snd.None? {
        return;
      }
      if played.None? {
        ambientChannels[i] := None;
        return;
      }
      ambientChannels[i] := played;
      status := status[played.value := PlayedVoice(!atmokyAvailable)];
      status := SetMode(status, played.value, false, true);
      status := SetVolume(status, ambientChannels[i].value, ambientVol[i] / 255.0);
    }

    /** The three branches of S_UpdateAmbientSounds. */
    method UpdateAmbients(env: AmbientEnv, assets: string -> AssetLoad, played: seq<Option<Channel>>)
      requires ambientSfx.Length == NumAmbients && ambientChannels.Length == NumAmbients
      requires ambientVol.Length == NumAmbients && |played| == NumAmbients
      requires knownSfx.Length == maxSfx && fmodSounds.Length == maxSfx
      requires forall j :: 0 <= j < NumAmbients && ambientSfx[j].Some? ==> ambientSfx[j].value < maxSfx
      modifies ambientChannels, ambientVol, fmodSounds, this`status
      ensures Ambients() == AmbientUpdate(old(Ambients()), ambientSfx[..], knownSfx[..], env, assets, played,
                                          atmokyAvailable)
    {
      if !env.active {
        StopAmbientLoops();
        assert ambientChannels[..] == seq(NumAmbients, _ => None);
        assert ambientVol[..] == seq(NumAmbients, _ => 0.0);
        return;
      }
      if !env.inLeaf || env.level == 0.0 {
        SilenceAmbients();
        return;
      }
      FadeAmbients(env, assets, played);
    }

    /** S_UpdateAmbientSounds: the effect AmbientUpdate describes. played
        holds the handles the mixer would hand out for restarts: new and
        distinct. */
    method UpdateAmbientSounds(env: AmbientEnv, assets: string -> AssetLoad, played: seq<Option<Channel>>)
      requires Valid() && |played| == NumAmbients && FreshPlays(status, played)
      modifies ambientChannels, ambientVol, fmodSounds, this`status
      ensures Valid()
      ensures Ambients() == AmbientUpdate(old(Ambients()), ambientSfx[..], knownSfx[..], env, assets, played,
                                          atmokyAvailable)
    {
      AmbientUpdateKeepsHandles(channels[..], Ambients(), ambientSfx[..], knownSfx[..], env, assets, played,
                                atmokyAvailable, dspParams.Keys, maxSfx);
      UpdateAmbients(env, assets, played);
    }
 

    /** FMOD_System_Update between two calls into the layer: the mixer moves
        its voices on as Advances allows, and the discipline still holds. */
    method MixerAdvances(st': Status)
      requires Valid() && Advances(status, st')
      modifies this`status
      ensures Valid() && status == st'
    {
      WiderKeepsHandles(channels[..], ambientChannels[..], status, st', dspParams.Keys, dspParams.Keys,
                        maxSfx, maxSfx);
      status := st';
    }

    /** S_Update, as far as the tables go: nothing while sound is blocked;
        otherwise the ambient loops, then the moving sounds, then, with
        Atmoky, the spatializers are updated, each on what the one before
        left. The frame time the ambient fader uses is the world's. */
    method Update(env: AmbientEnv, assets: string -> AssetLoad, played: seq<Option<Channel>>, w: World,
                  listener: Listener, sqrt: real -> real)
      requires Valid() && IsSqrt(sqrt) && env.frametime == w.frametime
      requires |played| == NumAmbients && FreshPlays(status, played)
      modifies channels, ambientChannels, ambientVol, fmodSounds, this`status, this`dspParams
      ensures Valid()
      ensures old(sndBlocked) > 0 ==> State() == old(State()) && Ambients() == old(Ambients())
      ensures old(sndBlocked) <= 0 ==>
                var f := AmbientUpdate(old(Ambients()), ambientSfx[..], knownSfx[..], env, assets, played,
                                       atmokyAvailable);
                var m := MoveSweep(old(channels[..]), f.st, w, sqrt, 0);
                var p := SpatialUpdate(atmokyAvailable, m.slots, m.st, old(dspParams), w, listener, sqrt);
                ambientChannels[..] == f.channels && ambientVol[..] == f.vols && fmodSounds[..] == f.sounds
                && status == m.st && channels[..] == p.slots && dspParams == p.dsps
    {
      if sndBlocked > 0 {
        return;
      }
      UpdateAmbientSounds(env, assets, played);
      UpdateMovingSounds(w, sqrt);
      UpdateSpatializers(w, listener, sqrt);
    }

    // ------------------------------------------------------------------
    // Blocking

    /** S_BlockSound: one more reason to keep sound off; the first one mutes
        the master channel group. */
    method BlockSound()
      requires Valid()
      modifies this`sndBlocked, this`masterMuted
      ensures Valid()
      ensures sndBlocked == old(sndBlocked) + 1 && masterMuted
    {
      sndBlocked := sndBlocked + 1;
      if sndBlocked == 1 {
        masterMuted := true;
      }
    }

    /** S_UnblockSound: one reason fewer; the last one unmutes the master
        channel group. Unblocking what is not blocked changes nothing. */
    method UnblockSound()
      requires Valid()
      modifies this`sndBlocked, this`masterMuted
      ensures Valid()
      ensures old(sndBlocked) == 0 ==> sndBlocked == 0 && !masterMuted
      ensures old(sndBlocked) > 0 ==> sndBlocked == old(sndBlocked) - 1 && (masterMuted <==> sndBlocked > 0)
    {
      if sndBlocked <= 0 {
        return;
      }
      sndBlocked := sndBlocked - 1;
      if sndBlocked == 0 {
        masterMuted := false;
      }
    }
  }
}
