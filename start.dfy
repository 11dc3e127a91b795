/** What S_StartSound and S_StaticSound do to the pool and the mixer, as
    functions of the state before: the stop loop, the new voice, AllocChannel
    and the filling in of the slot, and the mode, placement and volume
    settings. The methods of the sound system are proved to have exactly these
    effects; the properties the layer promises are proved here about the
    functions. */
module Starting {
  import opened Options
  import opened Vectors
  import opened Mixer
  import opened Motion
  import opened Slots
  import opened Frame

  /** The state these operations change: fmod_channels, the mixer's voices
      and the parameter blocks of the spatializer DSPs. */
  datatype Pool = Pool(slots: seq<Slot>, st: Status, dsps: map<Dsp, DspAttributes>)

  /** AllocChannel followed by storing s in the slot it hands out. */
  function Track(p: Pool, s: Slot): Pool {
    Pool(TrackSlots(p.slots, p.st, s), AllocStatus(p.slots, p.st), p.dsps)
  }

  /** Atmoky_AttachSpatializer for slot k: the voice is made 2D, and a DSP the
      mixer creates becomes the slot's spatializer with the initial attributes
      of a source at origin and at rest. Without Atmoky nothing happens. */
  function Attach(p: Pool, k: nat, origin: Vec3, dsp: Option<Dsp>, listener: Listener, atmoky: bool): Pool
    requires k < |p.slots| && p.slots[k].channel.Some?
  {
    if !atmoky then p
    else
      var st := SetModeFromRead2D(p.st, p.slots[k].channel.value);
      if dsp.None? then p.(st := st)
      else Pool(p.slots[k := p.slots[k].(spatializer := dsp)], st,
                p.dsps[dsp.value := SpatialAttributes(origin, Zero, listener)])
  }

  /** A sound of the local player, or one without attenuation, is heard
      everywhere alike: S_StartSound plays it 2D. */
  predicate Flat(entnum: int, attenuation: real, playerEnt: int) {
    entnum == playerEnt || attenuation <= 0.0
  }

  /** The mode branch and the volume of S_StartSound for the voice h, held by
      slot k when k is present. */
  function Configure(p: Pool, h: Channel, k: Option<nat>, entnum: int, origin: Vec3, fvol: real,
                     attenuation: real, playerEnt: int, dsp: Option<Dsp>, listener: Listener, atmoky: bool): Pool
    requires k.Some? ==> k.value < |p.slots| && p.slots[k.value].channel == Some(h)
  {
    var q :=
      if Flat(entnum, attenuation, playerEnt) then p.(st := SetMode2D(p.st, h))
      else if atmoky && k.Some? then Attach(p, k.value, origin, dsp, listener, atmoky)
      else p.(st := Set3DMinMaxDistance(Set3DAttributes(p.st, h, QVec(origin), Zero),
                                        h, Min3DDist, MaxDistance(attenuation)));
    q.(st := SetVolume(q.st, h, fvol))
  }

  /** The stop loop of S_StartSound: for a non-zero entchannel every sound
      tracked for (entnum, entchannel) is stopped and its slot freed. */
  function StopFor(p: Pool, entnum: int, entchannel: int): Pool {
    if entchannel != 0 then
      Pool(FreeMatching(p.slots, entnum, entchannel),
           StopSet(p.st, MatchedHandles(p.slots, entnum, entchannel)), p.dsps)
    else p
  }

  /** S_StartSound once FMOD_System_PlaySound has handed out h: the voice, its
      slot and its configuration. */
  function Started(p: Pool, h: Channel, entnum: int, entchannel: int, sfx: nat, origin: Vec3, fvol: real,
                   attenuation: real, w: World, dsp: Option<Dsp>, listener: Listener, atmoky: bool): Pool
  {
    var q := p.(st := p.st[h := PlayedVoice(!atmoky)]);
    Configure(Track(q, StartedSlot(h, entnum, entchannel, sfx, origin, w)), h, AllocIndex(q.slots, q.st),
              entnum, origin, fvol, attenuation, w.playerEnt, dsp, listener, atmoky)
  }

  /** S_StartSound for a sound that has loaded; played is the handle
      FMOD_System_PlaySound hands out, None when it fails. */
  function StartPool(p: Pool, entnum: int, entchannel: int, sfx: nat, origin: Vec3, fvol: real,
                     attenuation: real, w: World, played: Option<Channel>, dsp: Option<Dsp>,
                     listener: Listener, atmoky: bool): Pool
  {
    var q := StopFor(p, entnum, entchannel);
    if played.None? then q
    else Started(q, played.value, entnum, entchannel, sfx, origin, fvol, attenuation, w, dsp, listener, atmoky)
  }

  /** S_StaticSound once FMOD_System_PlaySound has handed out h. Without
      Atmoky the voice is configured (StaticVoice; StaticSetup shows that the
      setter sequence of the source gives it) and then tracked if a slot is
      handed out. */
  function StaticStarted(p: Pool, h: Channel, sfx: nat, origin: Vec3, vol: real, attenuation: real,
                         dsp: Option<Dsp>, listener: Listener, atmoky: bool): Pool
  {
    if atmoky then StaticSpatialized(p, h, sfx, origin, vol, dsp, listener)
    else Track(p.(st := p.st[h := StaticVoice(origin, vol, attenuation, false)]), StaticSlot(h, sfx, origin, false))
  }

  /** The Atmoky branch of S_StaticSound: the voice, made a 2D loop, is
      tracked if a slot is handed out and spatialized there, then set to
      vol / 255. */
  function StaticSpatialized(p: Pool, h: Channel, sfx: nat, origin: Vec3, vol: real,
                             dsp: Option<Dsp>, listener: Listener): Pool
  {
    var m := p.(st := p.st[h := PlayedVoice(false).(looping := true)]);
    var k := AllocIndex(m.slots, m.st);
    var t := Track(m, StaticSlot(h, sfx, origin, true));
    var a := if k.Some? then Attach(t, k.value, origin, dsp, listener, true) else t;
    a.(st := SetVolume(a.st, h, vol / 255.0))
  }

  /** The voice S_StaticSound configures: a 2D loop with Atmoky, a 3D loop at
      origin with the static range without; both at volume vol / 255. */
  function StaticVoice(origin: Vec3, vol: real, attenuation: real, atmoky: bool): (v: Voice)
    ensures v.playing && !v.isVirtual && v.looping && v.is3D == !atmoky && v.volume == vol / 255.0
  {
    if atmoky then PlayedVoice(false).(looping := true, volume := vol / 255.0)
    else PlayedVoice(true).(looping := true, position := QVec(origin), velocity := Zero,
                            minDist := Min3DDist, maxDist := StaticMaxDistance(attenuation), volume := vol / 255.0)
  }

  /** The setter sequences of S_StaticSound on the fresh voice h: the 2D loop
      of the Atmoky branch, and the whole configuration of the other. */
  lemma StaticSetup(st: Status, h: Channel, origin: Vec3, vol: real, attenuation: real)
    requires h !in st
    ensures SetMode(st[h := PlayedVoice(false)], h, false, true) == st[h := PlayedVoice(false).(looping := true)]
    ensures SetVolume(Set3DMinMaxDistance(Set3DAttributes(SetMode(st[h := PlayedVoice(true)], h, true, true),
                                                          h, QVec(origin), Zero),
                                          h, Min3DDist, StaticMaxDistance(attenuation)), h, vol / 255.0)
            == st[h := StaticVoice(origin, vol, attenuation, false)]
  {
    Loop3DSetup(st[h := PlayedVoice(true)], h, QVec(origin), Min3DDist, StaticMaxDistance(attenuation), vol / 255.0);
  }

  /** Configure changes h's voice alone, and slot k and the DSP blocks only
      when it attaches a spatializer; the voice ends up 2D, or placed at
      origin with the range of its attenuation, at volume fvol. */
  lemma ConfigureEffect(p: Pool, h: Channel, k: Option<nat>, entnum: int, origin: Vec3, fvol: real,
                        attenuation: real, playerEnt: int, dsp: Option<Dsp>, listener: Listener, atmoky: bool)
    requires k.Some? ==> k.value < |p.slots| && p.slots[k.value].channel == Some(h)
    requires h in p.st && p.st[h] == PlayedVoice(!atmoky)
    ensures var r := Configure(p, h, k, entnum, origin, fvol, attenuation, playerEnt, dsp, listener, atmoky);
            r.st.Keys == p.st.Keys && OthersUnchanged(p.st, r.st, h)
    ensures var r := Configure(p, h, k, entnum, origin, fvol, attenuation, playerEnt, dsp, listener, atmoky);
            var flat := Flat(entnum, attenuation, playerEnt) || (atmoky && k.Some?);
            (flat ==> r.st[h] == PlayedVoice(!atmoky).(is3D := false, volume := fvol))
            && (!flat ==> r.st[h] == PlayedVoice(!atmoky).(position := QVec(origin), velocity := Zero,
                                                           minDist := Min3DDist, maxDist := MaxDistance(attenuation),
                                                           volume := fvol))
    ensures var r := Configure(p, h, k, entnum, origin, fvol, attenuation, playerEnt, dsp, listener, atmoky);
            var spatialized := !Flat(entnum, attenuation, playerEnt) && atmoky && k.Some? && dsp.Some?;
            (spatialized ==> r.slots == p.slots[k.value := p.slots[k.value].(spatializer := dsp)]
                             && r.dsps == p.dsps[dsp.value := SpatialAttributes(origin, Zero, listener)])
            && (!spatialized ==> r.slots == p.slots && r.dsps == p.dsps)
  {
    if !Flat(entnum, attenuation, playerEnt) && atmoky && k.Some? {
      var a := Attach(p, k.value, origin, dsp, listener, atmoky);
      assert a.st == p.st[h := p.st[h].(is3D := false)];
    }
  }

  /** Started on a pool that does not know h, as far as the mixer goes: the
      voice joins it, configured as Configure says for the slot AllocChannel
      hands out, if any; it goes untracked exactly when every slot holds an
      audible voice, and then every slot still does; no audible voice is
      disturbed. */
  lemma StartedVoices(q: Pool, amb: seq<Option<Channel>>, h: Channel, entnum: int, entchannel: int, sfx: nat,
                      origin: Vec3, fvol: real, attenuation: real, w: World, dsp: Option<Dsp>,
                      listener: Listener, atmoky: bool)
    requires h !in q.st && Unused(q.slots, amb, h)
    ensures var r := Started(q, h, entnum, entchannel, sfx, origin, fvol, attenuation, w, dsp, listener, atmoky);
            var k := AllocIndex(q.slots, q.st[h := PlayedVoice(!atmoky)]);
            r.st.Keys == q.st.Keys + {h} && AudibleKept(q.st, r.st, {})
            && (k.None? <==> AllAudible(q.slots, q.st))
            && (k.None? ==> r.slots == q.slots && AllAudible(r.slots, r.st))
    ensures var r := Started(q, h, entnum, entchannel, sfx, origin, fvol, attenuation, w, dsp, listener, atmoky);
            var k := AllocIndex(q.slots, q.st[h := PlayedVoice(!atmoky)]);
            var flat := Flat(entnum, attenuation, w.playerEnt) || (atmoky && k.Some?);
            (flat ==> r.st[h] == PlayedVoice(!atmoky).(is3D := false, volume := fvol))
            && (!flat ==> r.st[h] == PlayedVoice(!atmoky).(position := QVec(origin), velocity := Zero,
                                                           minDist := Min3DDist, maxDist := MaxDistance(attenuation),
                                                           volume := fvol))
  {
    var q1 := q.(st := q.st[h := PlayedVoice(!atmoky)]);
    var s := StartedSlot(h, entnum, entchannel, sfx, origin, w);
    var k := AllocIndex(q1.slots, q1.st);
    TrackFreshVoices(q, amb, h, PlayedVoice(!atmoky), s);
    var t := Track(q1, s);
    ConfigureEffect(t, h, k, entnum, origin, fvol, attenuation, w.playerEnt, dsp, listener, atmoky);
    var r := Configure(t, h, k, entnum, origin, fvol, attenuation, w.playerEnt, dsp, listener, atmoky);
    if k.None? {
      AllAudibleIgnoresUnheld(t.slots, amb, t.st, r.st, h);
    }
  }

  /** Started, as far as the slots go: only the slot handed out changes; it
      is the one slot holding h, filled in as S_StartSound does and given the
      spatializer if one is attached, as is then its parameter block. */
  lemma StartedSlots(q: Pool, amb: seq<Option<Channel>>, h: Channel, entnum: int, entchannel: int, sfx: nat,
                     origin: Vec3, fvol: real, attenuation: real, w: World, dsp: Option<Dsp>,
                     listener: Listener, atmoky: bool)
    requires Unused(q.slots, amb, h)
    ensures var r := Started(q, h, entnum, entchannel, sfx, origin, fvol, attenuation, w, dsp, listener, atmoky);
            var k := AllocIndex(q.slots, q.st[h := PlayedVoice(!atmoky)]);
            var spatialized := !Flat(entnum, attenuation, w.playerEnt) && atmoky && k.Some? && dsp.Some?;
            |r.slots| == |q.slots|
            && (k.Some? ==> r.slots[k.value].(spatializer := None) == StartedSlot(h, entnum, entchannel, sfx, origin, w)
                            && r.slots[k.value].spatializer == (if spatialized then dsp else None))
            && (forall j :: 0 <= j < |q.slots| && k != Some(j) ==> r.slots[j] == q.slots[j])
            && (forall j :: 0 <= j < |r.slots| && r.slots[j].channel == Some(h) ==> k == Some(j))
            && (Holds(r.slots, h) <==> k.Some?)
            && r.dsps == (if spatialized then q.dsps[dsp.value := SpatialAttributes(origin, Zero, listener)] else q.dsps)
  {
    var q1 := q.(st := q.st[h := PlayedVoice(!atmoky)]);
    var s := StartedSlot(h, entnum, entchannel, sfx, origin, w);
    var k := AllocIndex(q1.slots, q1.st);
    TrackFreshSlots(q, amb, h, PlayedVoice(!atmoky), s);
    TrackKeepsVoice(q1, amb, s);
    var t := Track(q1, s);
    ConfigureEffect(t, h, k, entnum, origin, fvol, attenuation, w.playerEnt, dsp, listener, atmoky);
    var r := Configure(t, h, k, entnum, origin, fvol, attenuation, w.playerEnt, dsp, listener, atmoky);
    if k.Some? {
      assert r.slots[k.value].channel == Some(h);
    }
  }

  /** The stop loop keeps every handle known to the mixer, only frees slots,
      leaves no slot tracked for (entnum, entchannel), and disturbs no audible
      voice it was not asked to stop. */
  lemma StopForEffect(p: Pool, entnum: int, entchannel: int)
    ensures var q := StopFor(p, entnum, entchannel);
            q.st.Keys == p.st.Keys && q.dsps == p.dsps && |q.slots| == |p.slots|
            && (forall j :: 0 <= j < |p.slots| ==> SlotNarrows(p.slots[j], q.slots[j]))
            && (entchannel == 0 ==> q == p)
            && (entchannel != 0 ==> forall j :: 0 <= j < |q.slots| ==> !Matches(q.slots[j], entnum, entchannel))
            && AudibleKept(p.st, q.st, if entchannel != 0 then MatchedHandles(p.slots, entnum, entchannel) else {})
  {
    if entchannel != 0 {
      StopSetEffect(p.st, MatchedHandles(p.slots, entnum, entchannel));
      forall j | 0 <= j < |p.slots|
        ensures SlotNarrows(p.slots[j], StopFor(p, entnum, entchannel).slots[j])
      {
        FreedNarrows(p.slots[j]);
      }
    }
  }

  /** What StartSound leaves behind that every property below needs: a new
      handle is held by no slot, before and after the stop loop. */
  lemma PlayedIsUnused(p: Pool, amb: seq<Option<Channel>>, entnum: int, entchannel: int, h: Channel)
    requires h !in p.st && Unused(p.slots, amb, h)
    ensures Unused(p.slots, amb, h) && Unused(StopFor(p, entnum, entchannel).slots, amb, h)
    ensures h !in StopFor(p, entnum, entchannel).st
  {
    StopForEffect(p, entnum, entchannel);
    NarrowingKeepsUnused(p.slots, StopFor(p, entnum, entchannel).slots, amb, h);
  }

  /** S_StartSound adds the new voice to the mixer and nothing else; it is 2D
      for the local player, for a sound without attenuation and for a tracked
      sound with Atmoky, and otherwise a 3D voice at origin with the range of
      its attenuation; it plays once at volume fvol. */
  lemma StartSoundVoice(p: Pool, amb: seq<Option<Channel>>, entnum: int, entchannel: int, sfx: nat,
                        origin: Vec3, fvol: real, attenuation: real, w: World, played: Option<Channel>,
                        dsp: Option<Dsp>, listener: Listener, atmoky: bool)
    requires played.Some? ==> played.value !in p.st && Unused(p.slots, amb, played.value)
    ensures var r := StartPool(p, entnum, entchannel, sfx, origin, fvol, attenuation, w, played, dsp, listener, atmoky);
            played.None? ==> r.st.Keys == p.st.Keys && r.dsps == p.dsps && (entchannel == 0 ==> r == p)
    ensures var r := StartPool(p, entnum, entchannel, sfx, origin, fvol, attenuation, w, played, dsp, listener, atmoky);
            played.Some? ==>
              var h := played.value;
              var flat := Flat(entnum, attenuation, w.playerEnt) || (atmoky && Holds(r.slots, h));
              r.st.Keys == p.st.Keys + {h}
              && r.st[h].playing && !r.st[h].looping && r.st[h].volume == fvol
              && (flat ==> r.st[h] == PlayedVoice(!atmoky).(is3D := false, volume := fvol))
              && (!flat ==> r.st[h] == PlayedVoice(!atmoky).(position := QVec(origin), velocity := Zero,
                                                             minDist := Min3DDist, maxDist := MaxDistance(attenuation),
                                                             volume := fvol))
  {
    StopForEffect(p, entnum, entchannel);
    if played.Some? {
      var q := StopFor(p, entnum, entchannel);
      PlayedIsUnused(p, amb, entnum, entchannel, played.value);
      StartedVoices(q, amb, played.value, entnum, entchannel, sfx, origin, fvol, attenuation, w, dsp, listener, atmoky);
      StartedSlots(q, amb, played.value, entnum, entchannel, sfx, origin, fvol, attenuation, w, dsp, listener, atmoky);
    }
  }

  /** The new voice is held by at most one slot, filled in as S_StartSound
      does, with the spatializer attached to it if any; every other slot is as
      the stop loop left it, and a DSP block is added exactly when a
      spatializer is attached. */
  lemma StartSoundSlot(p: Pool, amb: seq<Option<Channel>>, entnum: int, entchannel: int, sfx: nat,
                       origin: Vec3, fvol: real, attenuation: real, w: World, played: Option<Channel>,
                       dsp: Option<Dsp>, listener: Listener, atmoky: bool)
    requires played.Some? ==> played.value !in p.st && Unused(p.slots, amb, played.value)
    ensures var r := StartPool(p, entnum, entchannel, sfx, origin, fvol, attenuation, w, played, dsp, listener, atmoky);
            var q := StopFor(p, entnum, entchannel);
            var spatialized := played.Some? && !Flat(entnum, attenuation, w.playerEnt) && atmoky
                               && Holds(r.slots, played.value) && dsp.Some?;
            |r.slots| == |p.slots|
            && (forall j :: 0 <= j < |r.slots| && (played.None? || r.slots[j].channel != played) ==> r.slots[j] == q.slots[j])
            && (forall j :: 0 <= j < |r.slots| && played.Some? && r.slots[j].channel == played ==>
                  r.slots[j].(spatializer := None) == StartedSlot(played.value, entnum, entchannel, sfx, origin, w)
                  && r.slots[j].spatializer == (if spatialized then dsp else None))
            && (forall i, j :: 0 <= i < j < |r.slots| && played.Some? && r.slots[i].channel == played ==>
                  r.slots[j].channel != played)
            && r.dsps == (if spatialized then p.dsps[dsp.value := SpatialAttributes(origin, Zero, listener)] else p.dsps)
  {
    StopForEffect(p, entnum, entchannel);
    if played.Some? {
      var q := StopFor(p, entnum, entchannel);
      PlayedIsUnused(p, amb, entnum, entchannel, played.value);
      StartedSlots(q, amb, played.value, entnum, entchannel, sfx, origin, fvol, attenuation, w, dsp, listener, atmoky);
    }
  }

  /** For a non-zero entchannel, afterwards the only sound tracked for
      (entnum, entchannel) is the new one: S_StartSound replaces what the
      entity played on that channel. */
  lemma StartSoundReplaces(p: Pool, amb: seq<Option<Channel>>, entnum: int, entchannel: int, sfx: nat,
                           origin: Vec3, fvol: real, attenuation: real, w: World, played: Option<Channel>,
                           dsp: Option<Dsp>, listener: Listener, atmoky: bool)
    requires played.Some? ==> played.value !in p.st && Unused(p.slots, amb, played.value)
    requires entchannel != 0
    ensures var r := StartPool(p, entnum, entchannel, sfx, origin, fvol, attenuation, w, played, dsp, listener, atmoky);
            forall j :: 0 <= j < |r.slots| && Matches(r.slots[j], entnum, entchannel) ==>
              played.Some? && r.slots[j].channel == played
  {
    StopForEffect(p, entnum, entchannel);
    if played.Some? {
      var q := StopFor(p, entnum, entchannel);
      PlayedIsUnused(p, amb, entnum, entchannel, played.value);
      StartedSlots(q, amb, played.value, entnum, entchannel, sfx, origin, fvol, attenuation, w, dsp, listener, atmoky);
    }
  }

  /** No audible voice is disturbed but the ones the stop loop stops: a voice
      given up for a slot is a virtual one. */
  lemma StartSoundKeepsAudible(p: Pool, amb: seq<Option<Channel>>, entnum: int, entchannel: int, sfx: nat,
                               origin: Vec3, fvol: real, attenuation: real, w: World, played: Option<Channel>,
                               dsp: Option<Dsp>, listener: Listener, atmoky: bool)
    requires played.Some? ==> played.value !in p.st && Unused(p.slots, amb, played.value)
    ensures var r := StartPool(p, entnum, entchannel, sfx, origin, fvol, attenuation, w, played, dsp, listener, atmoky);
            AudibleKept(p.st, r.st, if entchannel != 0 then MatchedHandles(p.slots, entnum, entchannel) else {})
  {
    StopForEffect(p, entnum, entchannel);
    if played.Some? {
      var q := StopFor(p, entnum, entchannel);
      PlayedIsUnused(p, amb, entnum, entchannel, played.value);
      StartedVoices(q, amb, played.value, entnum, entchannel, sfx, origin, fvol, attenuation, w, dsp, listener, atmoky);
    }
  }

  /** The new voice goes untracked exactly when, after the stop loop, every
      slot holds an audible voice, and then every slot still does. */
  lemma StartSoundUntracked(p: Pool, amb: seq<Option<Channel>>, entnum: int, entchannel: int, sfx: nat,
                            origin: Vec3, fvol: real, attenuation: real, w: World, played: Option<Channel>,
                            dsp: Option<Dsp>, listener: Listener, atmoky: bool)
    requires played.Some? && played.value !in p.st && Unused(p.slots, amb, played.value)
    ensures var r := StartPool(p, entnum, entchannel, sfx, origin, fvol, attenuation, w, played, dsp, listener, atmoky);
            var q := StopFor(p, entnum, entchannel);
            (!Holds(r.slots, played.value) <==> AllAudible(q.slots, q.st))
            && (!Holds(r.slots, played.value) ==> AllAudible(r.slots, r.st))
  {
    var q := StopFor(p, entnum, entchannel);
    PlayedIsUnused(p, amb, entnum, entchannel, played.value);
    StartedVoices(q, amb, played.value, entnum, entchannel, sfx, origin, fvol, attenuation, w, dsp, listener, atmoky);
    StartedSlots(q, amb, played.value, entnum, entchannel, sfx, origin, fvol, attenuation, w, dsp, listener, atmoky);
  }

  /** A fresh voice v for h joins the mixer and is tracked in the slot
      AllocChannel hands out, if any: the voice goes untracked exactly when
      every slot holds an audible voice, and no audible voice is disturbed. */
  lemma TrackFreshVoices(p: Pool, amb: seq<Option<Channel>>, h: Channel, v: Voice, s: Slot)
    requires h !in p.st && Unused(p.slots, amb, h) && s.channel == Some(h)
    ensures var m := p.(st := p.st[h := v]);
            var t := Track(m, s);
            var k := AllocIndex(m.slots, m.st);
            t.st.Keys == p.st.Keys + {h} && t.st[h] == v && AudibleKept(p.st, t.st, {}) && t.dsps == p.dsps
            && (k.None? <==> AllAudible(p.slots, p.st))
            && (k.None? ==> t.slots == p.slots && AllAudible(t.slots, t.st))
  {
    var m := p.(st := p.st[h := v]);
    TrackEffect(m.slots, amb, m.st, s);
    AllAudibleIgnoresUnheld(p.slots, amb, p.st, m.st, h);
  }

  /** ... and only the slot handed out changes; it holds s and is then the one
      slot holding h. */
  lemma TrackFreshSlots(p: Pool, amb: seq<Option<Channel>>, h: Channel, v: Voice, s: Slot)
    requires Unused(p.slots, amb, h) && s.channel == Some(h)
    ensures var m := p.(st := p.st[h := v]);
            var t := Track(m, s);
            var k := AllocIndex(m.slots, m.st);
            |t.slots| == |p.slots| && t.dsps == p.dsps
            && (k.Some? ==> t.slots[k.value] == s)
            && (forall j :: 0 <= j < |p.slots| && k != Some(j) ==> t.slots[j] == p.slots[j])
            && (forall j :: 0 <= j < |t.slots| && t.slots[j].channel == Some(h) ==> k == Some(j))
  {
    var m := p.(st := p.st[h := v]);
    var k := AllocIndex(m.slots, m.st);
    TrackEffect(m.slots, amb, m.st, s);
    var t := Track(m, s);
    forall j | 0 <= j < |t.slots| && k != Some(j)
      ensures t.slots[j].channel != Some(h)
    {
      assert t.slots[j] == p.slots[j];
    }
  }

  /** Tracking s keeps the handles of the mixer and the voice s holds. */
  lemma TrackKeepsVoice(m: Pool, amb: seq<Option<Channel>>, s: Slot)
    requires s.channel.Some? && Unused(m.slots, amb, s.channel.value) && s.channel.value in m.st
    ensures Track(m, s).st.Keys == m.st.Keys && Track(m, s).st[s.channel.value] == m.st[s.channel.value]
  {
    TrackEffect(m.slots, amb, m.st, s);
  }

  /** The Atmoky branch of S_StaticSound after the voice is tracked: the
      spatializer, if attached, changes the tracked slot and the DSP blocks,
      and the volume only h's voice. */
  lemma StaticSpatializedEffect(p: Pool, amb: seq<Option<Channel>>, h: Channel, sfx: nat, origin: Vec3, vol: real,
                                dsp: Option<Dsp>, listener: Listener)
    requires h !in p.st && Unused(p.slots, amb, h)
    ensures var m := p.(st := p.st[h := PlayedVoice(false).(looping := true)]);
            var t := Track(m, StaticSlot(h, sfx, origin, true));
            var k := AllocIndex(m.slots, m.st);
            var r := StaticSpatialized(p, h, sfx, origin, vol, dsp, listener);
            r.st == t.st[h := StaticVoice(origin, vol, 0.0, true)]
            && (k.Some? && dsp.Some? ==> r.slots == t.slots[k.value := t.slots[k.value].(spatializer := dsp)]
                                         && r.dsps == t.dsps[dsp.value := SpatialAttributes(origin, Zero, listener)])
            && (!(k.Some? && dsp.Some?) ==> r.slots == t.slots && r.dsps == t.dsps)
  {
    var m := p.(st := p.st[h := PlayedVoice(false).(looping := true)]);
    var s := StaticSlot(h, sfx, origin, true);
    var t := Track(m, s);
    var k := AllocIndex(m.slots, m.st);
    TrackKeepsVoice(m, amb, s);
    var a := if k.Some? then Attach(t, k.value, origin, dsp, listener, true) else t;
    assert a.st == t.st by {
      if k.Some? {
        assert t.slots[k.value].channel == Some(h);
        assert t.st[h].(is3D := false, looping := t.st[h].looping && !t.st[h].getModeFails) == t.st[h];
        assert t.st[h := t.st[h]] == t.st;
      }
    }
  }

  /** The voice S_StaticSound starts, tracked in the slot handed out if any,
      as the last step: the Atmoky branch adds its voice and slot with the
      volume and spatializer still to come. */
  function StaticTracked(p: Pool, h: Channel, sfx: nat, origin: Vec3, vol: real, attenuation: real, atmoky: bool): Pool {
    var v := if atmoky then PlayedVoice(false).(looping := true) else StaticVoice(origin, vol, attenuation, false);
    Track(p.(st := p.st[h := v]), StaticSlot(h, sfx, origin, atmoky))
  }

  /** StaticStarted is StaticTracked followed, with Atmoky, by the attach and
      the volume, which change h's voice, the slot holding it and the DSP
      blocks only. */
  lemma StaticFinish(p: Pool, amb: seq<Option<Channel>>, h: Channel, sfx: nat, origin: Vec3, vol: real, attenuation: real,
                     dsp: Option<Dsp>, listener: Listener, atmoky: bool)
    requires h !in p.st && Unused(p.slots, amb, h)
    ensures var t := StaticTracked(p, h, sfx, origin, vol, attenuation, atmoky);
            var r := StaticStarted(p, h, sfx, origin, vol, attenuation, dsp, listener, atmoky);
            var k := AllocIndex(p.slots, p.st[h := if atmoky then PlayedVoice(false).(looping := true)
                                                  else StaticVoice(origin, vol, attenuation, false)]);
            var spatialized := atmoky && k.Some? && dsp.Some?;
            r.st == t.st[h := StaticVoice(origin, vol, attenuation, atmoky)]
            && (spatialized ==> r.slots == t.slots[k.value := t.slots[k.value].(spatializer := dsp)]
                                && r.dsps == t.dsps[dsp.value := SpatialAttributes(origin, Zero, listener)])
            && (!spatialized ==> r.slots == t.slots && r.dsps == t.dsps)
  {
    if atmoky {
      StaticSpatializedEffect(p, amb, h, sfx, origin, vol, dsp, listener);
    } else {
      var m := p.(st := p.st[h := StaticVoice(origin, vol, attenuation, false)]);
      TrackKeepsVoice(m, amb, StaticSlot(h, sfx, origin, false));
      var t := Track(m, StaticSlot(h, sfx, origin, false));
      assert t.st[h := t.st[h]] == t.st;
    }
  }

  /** S_StaticSound adds the configured loop to the mixer and disturbs no
      audible voice. */
  lemma StaticSoundVoice(p: Pool, amb: seq<Option<Channel>>, h: Channel, sfx: nat, origin: Vec3, vol: real,
                         attenuation: real, dsp: Option<Dsp>, listener: Listener, atmoky: bool)
    requires h !in p.st && Unused(p.slots, amb, h)
    ensures var r := StaticStarted(p, h, sfx, origin, vol, attenuation, dsp, listener, atmoky);
            r.st.Keys == p.st.Keys + {h} && r.st[h] == StaticVoice(origin, vol, attenuation, atmoky)
            && AudibleKept(p.st, r.st, {})
  {
    var v := if atmoky then PlayedVoice(false).(looping := true) else StaticVoice(origin, vol, attenuation, false);
    TrackFreshVoices(p, amb, h, v, StaticSlot(h, sfx, origin, atmoky));
    StaticFinish(p, amb, h, sfx, origin, vol, attenuation, dsp, listener, atmoky);
  }

  /** The loop goes untracked exactly when every slot holds an audible voice,
      and then every slot still does. */
  lemma StaticSoundUntracked(p: Pool, amb: seq<Option<Channel>>, h: Channel, sfx: nat, origin: Vec3, vol: real,
                             attenuation: real, dsp: Option<Dsp>, listener: Listener, atmoky: bool)
    requires h !in p.st && Unused(p.slots, amb, h)
    ensures var r := StaticStarted(p, h, sfx, origin, vol, attenuation, dsp, listener, atmoky);
            (!Holds(r.slots, h) <==> AllAudible(p.slots, p.st))
            && (!Holds(r.slots, h) ==> AllAudible(r.slots, r.st))
  {
    var v := if atmoky then PlayedVoice(false).(looping := true) else StaticVoice(origin, vol, attenuation, false);
    var s := StaticSlot(h, sfx, origin, atmoky);
    var k := AllocIndex(p.slots, p.st[h := v]);
    TrackFreshVoices(p, amb, h, v, s);
    TrackFreshSlots(p, amb, h, v, s);
    StaticFinish(p, amb, h, sfx, origin, vol, attenuation, dsp, listener, atmoky);
    var t := StaticTracked(p, h, sfx, origin, vol, attenuation, atmoky);
    var r := StaticStarted(p, h, sfx, origin, vol, attenuation, dsp, listener, atmoky);
    if k.None? {
      AllAudibleIgnoresUnheld(t.slots, amb, t.st, r.st, h);
    } else {
      assert r.slots[k.value].channel == Some(h);
    }
  }

  /** The loop is held by at most one slot, filled in as S_StaticSound does,
      with the spatializer attached to it if any; every other slot is as it
      was, and a DSP block is added exactly when a spatializer is attached. */
  lemma StaticSoundSlot(p: Pool, amb: seq<Option<Channel>>, h: Channel, sfx: nat, origin: Vec3, vol: real,
                        attenuation: real, dsp: Option<Dsp>, listener: Listener, atmoky: bool)
    requires h !in p.st && Unused(p.slots, amb, h)
    ensures var r := StaticStarted(p, h, sfx, origin, vol, attenuation, dsp, listener, atmoky);
            var spatialized := atmoky && Holds(r.slots, h) && dsp.Some?;
            |r.slots| == |p.slots|
            && (forall j :: 0 <= j < |r.slots| && r.slots[j].channel != Some(h) ==> r.slots[j] == p.slots[j])
            && (forall j :: 0 <= j < |r.slots| && r.slots[j].channel == Some(h) ==>
                  r.slots[j].(spatializer := None) == StaticSlot(h, sfx, origin, atmoky)
                  && r.slots[j].spatializer == (if spatialized then dsp else None))
            && (forall i, j :: 0 <= i < j < |r.slots| && r.slots[i].channel == Some(h) ==> r.slots[j].channel != Some(h))
            && r.dsps == (if spatialized then p.dsps[dsp.value := SpatialAttributes(origin, Zero, listener)] else p.dsps)
  {
    var v := if atmoky then PlayedVoice(false).(looping := true) else StaticVoice(origin, vol, attenuation, false);
    var s := StaticSlot(h, sfx, origin, atmoky);
    var k := AllocIndex(p.slots, p.st[h := v]);
    TrackFreshSlots(p, amb, h, v, s);
    StaticFinish(p, amb, h, sfx, origin, vol, attenuation, dsp, listener, atmoky);
    var r := StaticStarted(p, h, sfx, origin, vol, attenuation, dsp, listener, atmoky);
    if k.Some? {
      assert r.slots[k.value].channel == Some(h);
    }
  }

  // ------------------------------------------------------------------
  // The handle discipline

  /** The handle discipline of a pool, with the ambient loops amb and n
      registered sounds. */
  predicate PoolOk(p: Pool, amb: seq<Option<Channel>>, n: int) {
    HandlesOk(p.slots, amb, p.st, p.dsps.Keys, n)
  }

  /** Tracking the slot of a voice nobody holds keeps the discipline. */
  lemma TrackKeepsHandles(p: Pool, amb: seq<Option<Channel>>, n: int, s: Slot)
    requires PoolOk(p, amb, n)
    requires s.channel.Some? && s.channel.value in p.st && Unused(p.slots, amb, s.channel.value)
    requires s.spatializer.None? && s.sfx.Some? && s.sfx.value < n
    ensures PoolOk(Track(p, s), amb, n)
  {
    AllocKeepsHandles(p.slots, amb, p.st, p.dsps.Keys, n);
    var k := AllocIndex(p.slots, p.st);
    if k.Some? {
      var a := AllocSlots(p.slots, p.st);
      ClearingKeepsUnused(p.slots, a, amb, s.channel.value, k.value);
      InstallKeepsHandles(a, amb, AllocStatus(p.slots, p.st), p.dsps.Keys, n, k.value, s);
    }
  }

  /** Attaching a DSP no slot holds keeps the discipline. */
  lemma AttachKeepsPool(p: Pool, amb: seq<Option<Channel>>, n: int, k: nat, origin: Vec3, dsp: Option<Dsp>,
                            listener: Listener, atmoky: bool)
    requires PoolOk(p, amb, n) && k < |p.slots| && p.slots[k].channel.Some?
    requires dsp.Some? ==> DspUnheld(p.slots, dsp.value)
    ensures PoolOk(Attach(p, k, origin, dsp, listener, atmoky), amb, n)
  {
    if atmoky {
      var st := SetModeFromRead2D(p.st, p.slots[k].channel.value);
      WiderKeepsHandles(p.slots, amb, p.st, st, p.dsps.Keys, p.dsps.Keys, n, n);
      if dsp.Some? {
        AttachKeepsHandles(p.slots, amb, st, p.dsps.Keys, n, k, dsp.value);
        assert p.dsps[dsp.value := SpatialAttributes(origin, Zero, listener)].Keys == p.dsps.Keys + {dsp.value};
      }
    }
  }

  /** Configuring a tracked or untracked voice keeps the discipline. */
  lemma ConfigureKeepsHandles(p: Pool, amb: seq<Option<Channel>>, n: int, h: Channel, k: Option<nat>, entnum: int,
                              origin: Vec3, fvol: real, attenuation: real, playerEnt: int, dsp: Option<Dsp>,
                              listener: Listener, atmoky: bool)
    requires PoolOk(p, amb, n)
    requires k.Some? ==> k.value < |p.slots| && p.slots[k.value].channel == Some(h)
    requires dsp.Some? ==> DspUnheld(p.slots, dsp.value)
    ensures PoolOk(Configure(p, h, k, entnum, origin, fvol, attenuation, playerEnt, dsp, listener, atmoky), amb, n)
  {
    var q :=
      if Flat(entnum, attenuation, playerEnt) then p.(st := SetMode2D(p.st, h))
      else if atmoky && k.Some? then Attach(p, k.value, origin, dsp, listener, atmoky)
      else p.(st := Set3DMinMaxDistance(Set3DAttributes(p.st, h, QVec(origin), Zero),
                                        h, Min3DDist, MaxDistance(attenuation)));
    if Flat(entnum, attenuation, playerEnt) {
      WiderKeepsHandles(p.slots, amb, p.st, q.st, p.dsps.Keys, p.dsps.Keys, n, n);
    } else if atmoky && k.Some? {
      AttachKeepsPool(p, amb, n, k.value, origin, dsp, listener, atmoky);
    } else {
      WiderKeepsHandles(p.slots, amb, p.st, q.st, p.dsps.Keys, p.dsps.Keys, n, n);
    }
    WiderKeepsHandles(q.slots, amb, q.st, SetVolume(q.st, h, fvol), q.dsps.Keys, q.dsps.Keys, n, n);
  }

  /** The stop loop keeps the discipline. */
  lemma StopForKeepsHandles(p: Pool, amb: seq<Option<Channel>>, n: int, entnum: int, entchannel: int)
    requires PoolOk(p, amb, n)
    ensures PoolOk(StopFor(p, entnum, entchannel), amb, n)
  {
    if entchannel != 0 {
      FreeMatchingKeepsHandles(p.slots, amb, p.st, StopFor(p, entnum, entchannel).st, p.dsps.Keys, n,
                               entnum, entchannel);
    }
  }

  /** Starting a voice on a handle the mixer has just issued keeps the
      discipline. */
  lemma StartedKeepsHandles(q: Pool, amb: seq<Option<Channel>>, n: int, h: Channel, entnum: int, entchannel: int,
                            sfx: nat, origin: Vec3, fvol: real, attenuation: real, w: World, dsp: Option<Dsp>,
                            listener: Listener, atmoky: bool)
    requires PoolOk(q, amb, n) && h !in q.st && sfx < n
    requires dsp.Some? ==> DspUnheld(q.slots, dsp.value)
    ensures PoolOk(Started(q, h, entnum, entchannel, sfx, origin, fvol, attenuation, w, dsp, listener, atmoky), amb, n)
  {
    var q1 := q.(st := q.st[h := PlayedVoice(!atmoky)]);
    FreshIsUnused(q.slots, amb, q.st, q.dsps.Keys, n, h);
    WiderKeepsHandles(q.slots, amb, q.st, q1.st, q.dsps.Keys, q.dsps.Keys, n, n);
    var s := StartedSlot(h, entnum, entchannel, sfx, origin, w);
    TrackKeepsHandles(q1, amb, n, s);
    if dsp.Some? {
      TrackKeepsUnheld(q1.slots, q1.st, s, dsp.value);
    }
    ConfigureKeepsHandles(Track(q1, s), amb, n, h, AllocIndex(q1.slots, q1.st), entnum, origin, fvol, attenuation,
                          w.playerEnt, dsp, listener, atmoky);
  }

  /** S_StartSound keeps the discipline. */
  lemma StartPoolKeepsHandles(p: Pool, amb: seq<Option<Channel>>, n: int, entnum: int, entchannel: int, sfx: nat,
                              origin: Vec3, fvol: real, attenuation: real, w: World, played: Option<Channel>,
                              dsp: Option<Dsp>, listener: Listener, atmoky: bool)
    requires PoolOk(p, amb, n) && sfx < n
    requires played.Some? ==> played.value !in p.st
    requires dsp.Some? ==> DspUnheld(p.slots, dsp.value)
    ensures PoolOk(StartPool(p, entnum, entchannel, sfx, origin, fvol, attenuation, w, played, dsp, listener, atmoky),
                   amb, n)
  {
    StopForKeepsHandles(p, amb, n, entnum, entchannel);
    StopForEffect(p, entnum, entchannel);
    if dsp.Some? && entchannel != 0 {
      FreeMatchingKeepsUnheld(p.slots, entnum, entchannel, dsp.value);
    }
    if played.Some? {
      StartedKeepsHandles(StopFor(p, entnum, entchannel), amb, n, played.value, entnum, entchannel, sfx, origin,
                          fvol, attenuation, w, dsp, listener, atmoky);
    }
  }

  /** S_StaticSound keeps the discipline. */
  lemma StaticStartedKeepsHandles(p: Pool, amb: seq<Option<Channel>>, n: int, h: Channel, sfx: nat, origin: Vec3,
                                  vol: real, attenuation: real, dsp: Option<Dsp>, listener: Listener, atmoky: bool)
    requires PoolOk(p, amb, n) && h !in p.st && sfx < n
    requires dsp.Some? ==> DspUnheld(p.slots, dsp.value)
    ensures PoolOk(StaticStarted(p, h, sfx, origin, vol, attenuation, dsp, listener, atmoky), amb, n)
  {
    FreshIsUnused(p.slots, amb, p.st, p.dsps.Keys, n, h);
    var v := if atmoky then PlayedVoice(false).(looping := true) else StaticVoice(origin, vol, attenuation, false);
    var m := p.(st := p.st[h := v]);
    WiderKeepsHandles(p.slots, amb, p.st, m.st, p.dsps.Keys, p.dsps.Keys, n, n);
    var s := StaticSlot(h, sfx, origin, atmoky);
    TrackKeepsHandles(m, amb, n, s);
    if atmoky {
      var t := Track(m, s);
      var k := AllocIndex(m.slots, m.st);
      var a := if k.Some? then Attach(t, k.value, origin, dsp, listener, true) else t;
      if k.Some? {
        if dsp.Some? {
          TrackKeepsUnheld(m.slots, m.st, s, dsp.value);
        }
        AttachKeepsPool(t, amb, n, k.value, origin, dsp, listener, true);
      }
      WiderKeepsHandles(a.slots, amb, a.st, SetVolume(a.st, h, vol / 255.0), a.dsps.Keys, a.dsps.Keys, n, n);
    }
  }
}
