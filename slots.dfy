/** The tracked-channel pool as values: one slot record per pool entry, the
    searches FindChannel and AllocChannel perform, and the handle discipline
    every operation keeps. */
module Slots {
  import opened Options
  import opened Vectors
  import opened Mixer

  /** fmod_channel_t. The sfx field is an index into the sound registry. */
  datatype Slot = Slot(
    channel: Option<Channel>, spatializer: Option<Dsp>,
    entnum: int, entchannel: int, sfx: Option<nat>, isStatic: bool,
    origin: Vec3, prevOrigin: Vec3, originOffset: Vec3, havePrevOrigin: bool)

  /** A slot after memset(0): free. */
  const ZeroSlot: Slot := Slot(None, None, 0, 0, None, false, Zero, Zero, Zero, false)

  /** Atmoky_ReleaseSpatializer: the DSP is detached and released, the rest of
      the slot is kept. */
  function ReleaseSpatializer(s: Slot): Slot {
    s.(spatializer := None)
  }

  /** Releasing the spatializer and clearing the handle, as every reaping site
      does; the slot becomes free. */
  function Freed(s: Slot): Slot {
    ReleaseSpatializer(s).(channel := None)
  }

  /** A slot is tracked for (entnum, entchannel); entchannel -1 matches every
      channel of the entity. */
  predicate Matches(s: Slot, entnum: int, entchannel: int) {
    s.channel.Some? && s.entnum == entnum && (entchannel == -1 || s.entchannel == entchannel)
  }

  /** A matching slot whose channel the mixer still reports as playing. */
  predicate Live(s: Slot, st: Status, entnum: int, entchannel: int) {
    Matches(s, entnum, entchannel) && ChannelIsPlaying(st, s.channel)
  }

  /** The first index at or after from whose element satisfies p, or |xs|. */
  function FirstWhere<T>(xs: seq<T>, p: T -> bool, from: nat): (r: nat)
    requires from <= |xs|
    ensures from <= r <= |xs|
    ensures r < |xs| ==> p(xs[r])
    ensures forall j :: from <= j < r ==> !p(xs[j])
    decreases |xs| - from
  {
    if from == |xs| then from
    else if p(xs[from]) then from
    else FirstWhere(xs, p, from + 1)
  }

  /** The slot FindChannel returns: the lowest-numbered live match. */
  function FirstLive(slots: seq<Slot>, st: Status, entnum: int, entchannel: int): (r: Option<nat>)
    ensures r.Some? ==> r.value < |slots| && Live(slots[r.value], st, entnum, entchannel)
                        && forall j :: 0 <= j < r.value ==> !Live(slots[j], st, entnum, entchannel)
    ensures r.None? ==> forall j :: 0 <= j < |slots| ==> !Live(slots[j], st, entnum, entchannel)
  {
    var k := FirstWhere(slots, s => Live(s, st, entnum, entchannel), 0);
    if k < |slots| then Some(k) else None
  }

  /** A free slot, or one whose channel has finished: the first pass of
      AllocChannel takes it. */
  predicate Reclaimable(s: Slot, st: Status) {
    s.channel.None? || !ChannelIsPlaying(st, s.channel)
  }

  /** A slot whose channel the mixer has made virtual: the second pass of
      AllocChannel stops and takes it. */
  predicate Stealable(s: Slot, st: Status) {
    s.channel.Some? && ChannelIsVirtual(st, s.channel)
  }

  datatype AllocChoice = TakeFree(i: nat) | TakeStale(i: nat) | Steal(i: nat) | Full

  /** The decision AllocChannel makes: the lowest free or finished slot; failing
      that, the lowest virtual one; failing that, none. */
  function ChooseSlot(slots: seq<Slot>, st: Status): (a: AllocChoice)
    ensures !a.Full? ==> a.i < |slots|
  {
    var k := FirstWhere(slots, s => Reclaimable(s, st), 0);
    if k < |slots| then
      if slots[k].channel.None? then TakeFree(k) else TakeStale(k)
    else
      var m := FirstWhere(slots, s => Stealable(s, st), 0);
      if m < |slots| then Steal(m) else Full
  }

  /** What ChooseSlot picks, slot by slot. */
  lemma ChooseSlotSpec(slots: seq<Slot>, st: Status)
    ensures var a := ChooseSlot(slots, st);
            (a.TakeFree? ==> slots[a.i].channel.None?
                             && forall j :: 0 <= j < a.i ==> !Reclaimable(slots[j], st))
            && (a.TakeStale? ==> slots[a.i].channel.Some? && !ChannelIsPlaying(st, slots[a.i].channel)
                                 && forall j :: 0 <= j < a.i ==> !Reclaimable(slots[j], st))
            && (a.Steal? ==> Stealable(slots[a.i], st) && ChannelIsPlaying(st, slots[a.i].channel)
                             && (forall j :: 0 <= j < |slots| ==> !Reclaimable(slots[j], st))
                             && forall j :: 0 <= j < a.i ==> !Stealable(slots[j], st))
            && (a.Full? <==> forall j :: 0 <= j < |slots| ==>
                               ChannelIsPlaying(st, slots[j].channel) && !ChannelIsVirtual(st, slots[j].channel))
  {
    var k := FirstWhere(slots, s => Reclaimable(s, st), 0);
    if k == |slots| {
      var m := FirstWhere(slots, s => Stealable(s, st), 0);
      if m == |slots| {
        forall j | 0 <= j < |slots|
          ensures ChannelIsPlaying(st, slots[j].channel) && !ChannelIsVirtual(st, slots[j].channel)
        {
          assert !Reclaimable(slots[j], st) && !Stealable(slots[j], st);
        }
      }
    }
  }

  /** The voice AllocChannel gives up is virtual, and held by a slot. */
  lemma StealTakesVirtual(slots: seq<Slot>, amb: seq<Option<Channel>>, st: Status, h: Channel)
    requires ChooseSlot(slots, st).Steal? && Unused(slots, amb, h)
    ensures var victim := slots[ChooseSlot(slots, st).i].channel.value;
            ChannelIsVirtual(st, Some(victim)) && victim != h
  {
    ChooseSlotSpec(slots, st);
  }

  /** Every slot holds an audible voice: a playing channel the mixer has not
      made virtual. */
  predicate AllAudible(slots: seq<Slot>, st: Status) {
    forall j :: 0 <= j < |slots| ==> ChannelIsPlaying(st, slots[j].channel) && !ChannelIsVirtual(st, slots[j].channel)
  }

  /** The slot AllocChannel hands out, if any. */
  function AllocIndex(slots: seq<Slot>, st: Status): (r: Option<nat>)
    ensures r.Some? ==> r.value < |slots|
  {
    var a := ChooseSlot(slots, st);
    if a.Full? then None else Some(a.i)
  }

  /** The slots after AllocChannel: a finished or virtual slot it takes is
      zeroed. */
  function AllocSlots(slots: seq<Slot>, st: Status): (r: seq<Slot>)
    ensures |r| == |slots|
  {
    var a := ChooseSlot(slots, st);
    if a.TakeStale? || a.Steal? then slots[a.i := ZeroSlot] else slots
  }

  /** The mixer after AllocChannel: the virtual voice whose slot it takes is
      stopped. */
  function AllocStatus(slots: seq<Slot>, st: Status): (r: Status)
    ensures r.Keys == st.Keys
  {
    var a := ChooseSlot(slots, st);
    if a.Steal? then Stop(st, slots[a.i].channel.value) else st
  }

  /** AllocChannel followed by storing s in the slot it hands out, if any. */
  function TrackSlots(slots: seq<Slot>, st: Status, s: Slot): (r: seq<Slot>)
    ensures |r| == |slots|
    ensures AllocIndex(slots, st).Some? ==> r[AllocIndex(slots, st).value] == s
  {
    var k := AllocIndex(slots, st);
    if k.Some? then AllocSlots(slots, st)[k.value := s] else slots
  }

  /** Tracking s changes only the slot handed out, which then holds s; no slot
      is handed out exactly when every slot holds an audible voice; and the
      mixer changes only by stopping a virtual voice other than the one s
      holds. */
  lemma TrackEffect(slots: seq<Slot>, amb: seq<Option<Channel>>, st: Status, s: Slot)
    requires s.channel.Some? && Unused(slots, amb, s.channel.value)
    ensures var k := AllocIndex(slots, st);
            (k.None? <==> AllAudible(slots, st))
            && (k.None? ==> TrackSlots(slots, st, s) == slots && AllocStatus(slots, st) == st)
            && forall j :: 0 <= j < |slots| && k != Some(j) ==> TrackSlots(slots, st, s)[j] == slots[j]
    ensures forall g :: g in st && AllocStatus(slots, st)[g] != st[g] ==>
              ChannelIsVirtual(st, Some(g)) && g != s.channel.value
  {
    var a := ChooseSlot(slots, st);
    ChooseSlotSpec(slots, st);
    if a.Steal? {
      StealTakesVirtual(slots, amb, st, s.channel.value);
      StopTouchesOnly(st, slots[a.i].channel.value);
    }
  }

  /** AllocChannel hands out no slot exactly when every slot holds an audible
      voice. */
  lemma AllocFailsIffAllAudible(slots: seq<Slot>, st: Status)
    ensures AllocIndex(slots, st).None? <==> AllAudible(slots, st)
  {
    ChooseSlotSpec(slots, st);
  }

  /** A slot holding a playing, non-virtual channel is never the one chosen, so
      allocation never cuts off an audible sound. */
  lemma AudibleNeverChosen(slots: seq<Slot>, st: Status, j: nat)
    requires j < |slots|
    requires ChannelIsPlaying(st, slots[j].channel) && !ChannelIsVirtual(st, slots[j].channel)
    ensures var a := ChooseSlot(slots, st); a.Full? || a.i != j
  {
    ChooseSlotSpec(slots, st);
  }

  /** The handles of the slots tracked for (entnum, entchannel). */
  function MatchedHandles(slots: seq<Slot>, entnum: int, entchannel: int): set<Channel> {
    set j | 0 <= j < |slots| && Matches(slots[j], entnum, entchannel) :: slots[j].channel.value
  }

  /** The handles of every occupied slot. */
  function TrackedHandles(slots: seq<Slot>): set<Channel> {
    set j | 0 <= j < |slots| && slots[j].channel.Some? :: slots[j].channel.value
  }

  /** The matched handles of one more slot; the loop invariant of
      SoundSystem.Sound.StopMatching uses it. */
  lemma MatchedHandlesPrefix(slots: seq<Slot>, i: nat, entnum: int, entchannel: int)
    requires i < |slots|
    ensures MatchedHandles(slots[..i + 1], entnum, entchannel)
            == MatchedHandles(slots[..i], entnum, entchannel)
               + (if Matches(slots[i], entnum, entchannel) then {slots[i].channel.value} else {})
  {
    var a, b := slots[..i + 1], slots[..i];
    forall h | h in MatchedHandles(a, entnum, entchannel)
      ensures h in MatchedHandles(b, entnum, entchannel) + (if Matches(slots[i], entnum, entchannel) then {slots[i].channel.value} else {})
    {
      var j :| 0 <= j < |a| && Matches(a[j], entnum, entchannel) && a[j].channel.value == h;
      if j < i {
        assert b[j] == a[j];
      }
    }
    forall h | h in MatchedHandles(b, entnum, entchannel)
      ensures h in MatchedHandles(a, entnum, entchannel)
    {
      var j :| 0 <= j < |b| && Matches(b[j], entnum, entchannel) && b[j].channel.value == h;
      assert a[j] == b[j];
    }
    if Matches(slots[i], entnum, entchannel) {
      assert a[i] == slots[i];
    }
  }

  /** The tracked handles of one more slot; the loop invariant of
      SoundSystem.Sound.StopTracked uses it. */
  lemma TrackedHandlesPrefix(slots: seq<Slot>, i: nat)
    requires i < |slots|
    ensures TrackedHandles(slots[..i + 1])
            == TrackedHandles(slots[..i]) + (if slots[i].channel.Some? then {slots[i].channel.value} else {})
  {
    var a, b := slots[..i + 1], slots[..i];
    forall h | h in TrackedHandles(a)
      ensures h in TrackedHandles(b) + (if slots[i].channel.Some? then {slots[i].channel.value} else {})
    {
      var j :| 0 <= j < |a| && a[j].channel.Some? && a[j].channel.value == h;
      if j < i {
        assert b[j] == a[j];
      }
    }
    forall h | h in TrackedHandles(b)
      ensures h in TrackedHandles(a)
    {
      var j :| 0 <= j < |b| && b[j].channel.Some? && b[j].channel.value == h;
      assert a[j] == b[j];
    }
    if slots[i].channel.Some? {
      assert a[i] == slots[i];
    }
  }

  /** The indices of the occupied slots. */
  function Occupied(slots: seq<Slot>): set<nat> {
    set j | 0 <= j < |slots| && slots[j].channel.Some?
  }

  /** b is a with some slots tracked for (entnum, entchannel) freed. */
  predicate FreedSomeMatching(a: seq<Slot>, b: seq<Slot>, entnum: int, entchannel: int) {
    |a| == |b|
    && forall j :: 0 <= j < |a| ==>
         b[j] == a[j] || (Matches(a[j], entnum, entchannel) && b[j] == Freed(a[j]))
  }

  /** Freeing matches twice is freeing matches; the loop of
      SoundSystem.Sound.StopEntityChannel composes its rounds with it. */
  lemma FreedSomeMatchingTrans(a: seq<Slot>, b: seq<Slot>, c: seq<Slot>, entnum: int, entchannel: int)
    requires FreedSomeMatching(a, b, entnum, entchannel) && FreedSomeMatching(b, c, entnum, entchannel)
    ensures FreedSomeMatching(a, c, entnum, entchannel)
  {
    forall j | 0 <= j < |a|
      ensures c[j] == a[j] || (Matches(a[j], entnum, entchannel) && c[j] == Freed(a[j]))
    {
      if b[j] != a[j] {
        assert !Matches(b[j], entnum, entchannel);
      }
    }
  }

  /** b is a with every slot tracked for (entnum, entchannel) freed. */
  predicate FreedAllMatching(a: seq<Slot>, b: seq<Slot>, entnum: int, entchannel: int) {
    |a| == |b|
    && forall j :: 0 <= j < |a| ==>
         b[j] == if Matches(a[j], entnum, entchannel) then Freed(a[j]) else a[j]
  }

  /** The slots once every slot tracked for (entnum, entchannel) is freed. */
  function FreeMatching(slots: seq<Slot>, entnum: int, entchannel: int): (r: seq<Slot>)
    ensures FreedAllMatching(slots, r, entnum, entchannel)
  {
    seq(|slots|, j requires 0 <= j < |slots| =>
      if Matches(slots[j], entnum, entchannel) then Freed(slots[j]) else slots[j])
  }

  lemma FreedAllIsFreeMatching(a: seq<Slot>, b: seq<Slot>, entnum: int, entchannel: int)
    requires FreedAllMatching(a, b, entnum, entchannel)
    ensures b == FreeMatching(a, entnum, entchannel)
  {
  }

  lemma FreedSomeThenAll(a: seq<Slot>, b: seq<Slot>, c: seq<Slot>, entnum: int, entchannel: int)
    requires FreedSomeMatching(a, b, entnum, entchannel) && FreedAllMatching(b, c, entnum, entchannel)
    ensures FreedAllMatching(a, c, entnum, entchannel)
  {
    forall j | 0 <= j < |a|
      ensures c[j] == if Matches(a[j], entnum, entchannel) then Freed(a[j]) else a[j]
    {
      if b[j] != a[j] {
        assert !Matches(b[j], entnum, entchannel);
      }
    }
  }

  /** Every slot of a that b no longer holds either had its voice stopped (its
      handle is in stopped) or held a voice that was not playing in st. */
  predicate StoppedOrFinished(a: seq<Slot>, b: seq<Slot>, st: Status, stopped: set<Channel>) {
    |a| == |b|
    && forall j :: 0 <= j < |a| && b[j] != a[j] && a[j].channel.Some? ==>
         a[j].channel.value in stopped || !ChannelIsPlaying(st, a[j].channel)
  }

  /** Freeing slots whose voices are not playing once stopped is allowed. */
  lemma ReapKeepsStoppedOrFinished(a: seq<Slot>, b: seq<Slot>, c: seq<Slot>, st: Status, stopped: set<Channel>)
    requires StoppedOrFinished(a, b, st, stopped) && |b| == |c|
    requires forall j :: 0 <= j < |b| && c[j] != b[j] ==>
               b[j].channel.Some? && !ChannelIsPlaying(StopSet(st, stopped), b[j].channel)
    ensures StoppedOrFinished(a, c, st, stopped)
  {
    StopSetEffect(st, stopped);
    forall j | 0 <= j < |a| && c[j] != a[j] && a[j].channel.Some?
      ensures a[j].channel.value in stopped || !ChannelIsPlaying(st, a[j].channel)
    {
      if b[j] == a[j] {
        var h := a[j].channel.value;
        if h !in stopped && h in st {
          assert StopSet(st, stopped)[h] == st[h];
        }
      }
    }
  }

  /** Freeing a slot still as in a after stopping its voice is allowed. */
  lemma StopKeepsStoppedOrFinished(a: seq<Slot>, b: seq<Slot>, st: Status, stopped: set<Channel>, k: nat, s: Slot)
    requires StoppedOrFinished(a, b, st, stopped) && k < |b| && b[k] == a[k] && a[k].channel.Some?
    ensures StoppedOrFinished(a, b[k := s], st, stopped + {a[k].channel.value})
  {
  }

  /** Once every matching slot is freed, having stopped only the matching
      voices that were playing is stopping all matching voices. */
  lemma StoppedAllMatching(a: seq<Slot>, b: seq<Slot>, st: Status, stopped: set<Channel>, entnum: int, entchannel: int)
    requires FreedAllMatching(a, b, entnum, entchannel) && StoppedOrFinished(a, b, st, stopped)
    requires stopped <= MatchedHandles(a, entnum, entchannel)
    ensures StopSet(st, stopped) == StopSet(st, MatchedHandles(a, entnum, entchannel))
  {
    var m := MatchedHandles(a, entnum, entchannel);
    forall h | h in m && h !in stopped
      ensures !ChannelIsPlaying(st, Some(h))
    {
      var j :| 0 <= j < |a| && Matches(a[j], entnum, entchannel) && a[j].channel.value == h;
      assert b[j] == Freed(a[j]) && b[j] != a[j];
    }
    StopSetIgnoresFinished(st, stopped, m);
    assert stopped + m == m;
  }

  /** The handles the ambient loops hold. */
  function AmbientHandles(amb: seq<Option<Channel>>): set<Channel> {
    set i | 0 <= i < |amb| && amb[i].Some? :: amb[i].value
  }

  lemma AmbientHandlesPrefix(amb: seq<Option<Channel>>, i: nat)
    requires i < |amb|
    ensures AmbientHandles(amb[..i + 1])
            == AmbientHandles(amb[..i]) + (if amb[i].Some? then {amb[i].value} else {})
  {
    var a, b := amb[..i + 1], amb[..i];
    forall h | h in AmbientHandles(a)
      ensures h in AmbientHandles(b) + (if amb[i].Some? then {amb[i].value} else {})
    {
      var j :| 0 <= j < |a| && a[j].Some? && a[j].value == h;
      if j < i {
        assert b[j] == a[j];
      }
    }
    forall h | h in AmbientHandles(b)
      ensures h in AmbientHandles(a)
    {
      var j :| 0 <= j < |b| && b[j].Some? && b[j].value == h;
      assert a[j] == b[j];
    }
    if amb[i].Some? {
      assert a[i] == amb[i];
    }
  }

  /** The handle discipline of the pool and the ambient loops: every handle the
      layer holds is one the mixer issued, no handle is held twice, every
      spatializer is a DSP the layer created, held once and only by an occupied
      slot, and every sound index is inside the table (below max_sfx). */
  predicate HandlesOk(slots: seq<Slot>, ambient: seq<Option<Channel>>, st: Status, dsps: set<Dsp>, maxSfx: int) {
    (forall i :: 0 <= i < |slots| && slots[i].channel.Some? ==> slots[i].channel.value in st)
    && (forall i, j :: 0 <= i < |slots| && 0 <= j < |slots| && i != j && slots[i].channel.Some?
          ==> slots[i].channel != slots[j].channel)
    && (forall i :: 0 <= i < |slots| && slots[i].spatializer.Some?
          ==> slots[i].spatializer.value in dsps && slots[i].channel.Some?)
    && (forall i, j :: 0 <= i < |slots| && 0 <= j < |slots| && i != j && slots[i].spatializer.Some?
          ==> slots[i].spatializer != slots[j].spatializer)
    && (forall i :: 0 <= i < |slots| && slots[i].sfx.Some? ==> 0 <= slots[i].sfx.value < maxSfx)
    && (forall i :: 0 <= i < |ambient| && ambient[i].Some? ==> ambient[i].value in st)
    && (forall i, j :: 0 <= i < |ambient| && 0 <= j < |ambient| && i != j && ambient[i].Some?
          ==> ambient[i] != ambient[j])
    && (forall i, j :: 0 <= i < |ambient| && 0 <= j < |slots| && ambient[i].Some?
          ==> ambient[i] != slots[j].channel)
  }

  /** b keeps or drops each handle, spatializer and sound of a, and drops no
      channel from under a spatializer it keeps. */
  predicate SlotNarrows(a: Slot, b: Slot) {
    (b.channel == a.channel || b.channel.None?)
    && (b.spatializer == a.spatializer || b.spatializer.None?)
    && (b.sfx == a.sfx || b.sfx.None?)
    && (b.spatializer.Some? ==> b.channel == a.channel)
  }

  lemma FreedNarrows(s: Slot)
    ensures SlotNarrows(s, Freed(s)) && SlotNarrows(s, ReleaseSpatializer(s)) && SlotNarrows(s, ZeroSlot)
    ensures Freed(s).channel.None? && Freed(s).spatializer.None?
  {
  }

  /** Dropping handles, learning of more mixer handles or DSPs, and registering
      more sounds all keep the discipline. */
  lemma NarrowingKeepsHandles(a: seq<Slot>, b: seq<Slot>, amb: seq<Option<Channel>>, amb': seq<Option<Channel>>,
                              st: Status, st': Status, dsps: set<Dsp>, dsps': set<Dsp>, n: int, n': int)
    requires HandlesOk(a, amb, st, dsps, n)
    requires |a| == |b| && forall j :: 0 <= j < |a| ==> SlotNarrows(a[j], b[j])
    requires |amb| == |amb'| && forall j :: 0 <= j < |amb| ==> amb'[j] == amb[j] || amb'[j].None?
    requires st.Keys <= st'.Keys && dsps <= dsps' && n <= n'
    ensures HandlesOk(b, amb', st', dsps', n')
  {
    forall i, j | 0 <= i < |b| && 0 <= j < |b| && i != j && b[i].channel.Some?
      ensures b[i].channel != b[j].channel
    {
      assert a[i].channel == b[i].channel;
      assert b[j].channel == a[j].channel || b[j].channel.None?;
    }
    forall i, j | 0 <= i < |b| && 0 <= j < |b| && i != j && b[i].spatializer.Some?
      ensures b[i].spatializer != b[j].spatializer
    {
      assert a[i].spatializer == b[i].spatializer;
    }
    forall i, j | 0 <= i < |amb'| && 0 <= j < |b| && amb'[i].Some?
      ensures amb'[i] != b[j].channel
    {
      assert amb'[i] == amb[i];
    }
  }

  /** With the slots as they are, learning of more mixer handles or DSPs and
      registering more sounds keep the discipline. */
  lemma WiderKeepsHandles(slots: seq<Slot>, amb: seq<Option<Channel>>, st: Status, st': Status,
                          dsps: set<Dsp>, dsps': set<Dsp>, n: int, n': int)
    requires HandlesOk(slots, amb, st, dsps, n)
    requires st.Keys <= st'.Keys && dsps <= dsps' && n <= n'
    ensures HandlesOk(slots, amb, st', dsps', n')
  {
  }

  /** A pool of zeroed slots keeps the discipline, whatever the mixer did to
      the voices as long as it forgot no handle. */
  lemma ZeroedKeepsHandles(a: seq<Slot>, b: seq<Slot>, amb: seq<Option<Channel>>, st: Status, st': Status,
                           dsps: set<Dsp>, n: int)
    requires HandlesOk(a, amb, st, dsps, n) && st.Keys <= st'.Keys
    requires forall j :: 0 <= j < |b| ==> b[j] == ZeroSlot
    ensures HandlesOk(b, amb, st', dsps, n)
  {
  }

  /** The handle discipline holds from the start: zeroed slots, no ambient
      channel, an empty mixer. */
  lemma InitialHandlesOk(slots: seq<Slot>, amb: seq<Option<Channel>>, n: int)
    requires forall j :: 0 <= j < |slots| ==> slots[j] == ZeroSlot
    requires forall j :: 0 <= j < |amb| ==> amb[j].None?
    ensures HandlesOk(slots, amb, map[], {}, n)
  {
  }

  /** Zeroing or freeing one slot keeps the discipline, whatever the mixer did
      to the voices meanwhile as long as it forgot no handle. */
  lemma ClearingKeepsHandles(a: seq<Slot>, b: seq<Slot>, amb: seq<Option<Channel>>, st: Status, st': Status,
                             dsps: set<Dsp>, n: int, i: nat)
    requires HandlesOk(a, amb, st, dsps, n) && i < |a| && st.Keys <= st'.Keys
    requires b == a[i := ZeroSlot] || b == a[i := Freed(a[i])]
    ensures HandlesOk(b, amb, st', dsps, n)
  {
    forall j | 0 <= j < |a|
      ensures SlotNarrows(a[j], b[j])
    {
      FreedNarrows(a[j]);
    }
    NarrowingKeepsHandles(a, b, amb, amb, st, st', dsps, dsps, n, n);
  }

  /** AllocChannel keeps the discipline, and the slot it hands out is free. */
  lemma AllocKeepsHandles(slots: seq<Slot>, amb: seq<Option<Channel>>, st: Status, dsps: set<Dsp>, n: int)
    requires HandlesOk(slots, amb, st, dsps, n)
    ensures HandlesOk(AllocSlots(slots, st), amb, AllocStatus(slots, st), dsps, n)
    ensures var k := AllocIndex(slots, st);
            k.Some? ==> AllocSlots(slots, st)[k.value].channel.None?
  {
    var a := ChooseSlot(slots, st);
    ChooseSlotSpec(slots, st);
    if a.TakeStale? || a.Steal? {
      ClearingKeepsHandles(slots, AllocSlots(slots, st), amb, st, AllocStatus(slots, st), dsps, n, a.i);
    }
  }

  /** Freeing every slot tracked for (entnum, entchannel) keeps the
      discipline, whatever the mixer did meanwhile as long as it forgot no
      handle. */
  lemma FreeMatchingKeepsHandles(a: seq<Slot>, amb: seq<Option<Channel>>, st: Status, st': Status,
                                 dsps: set<Dsp>, n: int, entnum: int, entchannel: int)
    requires HandlesOk(a, amb, st, dsps, n) && st.Keys <= st'.Keys
    ensures HandlesOk(FreeMatching(a, entnum, entchannel), amb, st', dsps, n)
  {
    var b := FreeMatching(a, entnum, entchannel);
    forall j | 0 <= j < |a|
      ensures SlotNarrows(a[j], b[j])
    {
      FreedNarrows(a[j]);
    }
    NarrowingKeepsHandles(a, b, amb, amb, st, st', dsps, dsps, n, n);
  }

  /** Forgetting every ambient loop keeps the discipline, whatever the mixer
      did meanwhile as long as it forgot no handle. */
  lemma AmbientClearedKeepsHandles(slots: seq<Slot>, amb: seq<Option<Channel>>, amb': seq<Option<Channel>>,
                                   st: Status, st': Status, dsps: set<Dsp>, n: int)
    requires HandlesOk(slots, amb, st, dsps, n) && st.Keys <= st'.Keys
    requires forall j :: 0 <= j < |amb'| ==> amb'[j].None?
    ensures HandlesOk(slots, amb', st', dsps, n)
  {
  }

  /** When nothing is tracked for (entnum, entchannel), freeing and stopping
      what is tracked for it changes nothing. */
  lemma NothingMatchedNothingFreed(a: seq<Slot>, st: Status, entnum: int, entchannel: int)
    requires forall j :: 0 <= j < |a| ==> !Matches(a[j], entnum, entchannel)
    ensures FreeMatching(a, entnum, entchannel) == a
    ensures StopSet(st, MatchedHandles(a, entnum, entchannel)) == st
  {
    assert MatchedHandles(a, entnum, entchannel) == {};
    StopSetEmpty(st);
  }

  /** Neither a slot nor an ambient loop holds h. */
  predicate Unused(slots: seq<Slot>, amb: seq<Option<Channel>>, h: Channel) {
    (forall j :: 0 <= j < |slots| ==> slots[j].channel != Some(h))
    && forall j :: 0 <= j < |amb| ==> amb[j] != Some(h)
  }

  /** Some slot holds h. */
  predicate Holds(slots: seq<Slot>, h: Channel) {
    exists j :: 0 <= j < |slots| && slots[j].channel == Some(h)
  }

  /** Whether every slot holds an audible voice does not depend on a voice no
      slot holds. */
  lemma AllAudibleIgnoresUnheld(slots: seq<Slot>, amb: seq<Option<Channel>>, st: Status, st': Status, h: Channel)
    requires Unused(slots, amb, h) && OthersUnchanged(st, st', h) && OthersUnchanged(st', st, h)
    ensures AllAudible(slots, st) <==> AllAudible(slots, st')
  {
  }

  /** A handle the mixer had not issued is held by nobody. */
  lemma FreshIsUnused(slots: seq<Slot>, amb: seq<Option<Channel>>, st: Status, dsps: set<Dsp>, n: int, h: Channel)
    requires HandlesOk(slots, amb, st, dsps, n) && h !in st
    ensures Unused(slots, amb, h)
  {
  }

  /** Dropping handles cannot make a held handle appear. */
  lemma NarrowingKeepsUnused(a: seq<Slot>, b: seq<Slot>, amb: seq<Option<Channel>>, h: Channel)
    requires Unused(a, amb, h)
    requires |a| == |b| && forall j :: 0 <= j < |a| ==> SlotNarrows(a[j], b[j])
    ensures Unused(b, amb, h)
  {
    forall j | 0 <= j < |b|
      ensures b[j].channel != Some(h)
    {
      assert SlotNarrows(a[j], b[j]);
    }
  }

  /** Zeroing a slot cannot make a held handle appear. */
  lemma ClearingKeepsUnused(a: seq<Slot>, b: seq<Slot>, amb: seq<Option<Channel>>, h: Channel, i: nat)
    requires Unused(a, amb, h) && i < |a|
    requires b == a || b == a[i := ZeroSlot]
    ensures Unused(b, amb, h) && b[i].channel == (if b == a then a[i].channel else None)
  {
  }

  /** Putting a slot holding an unused handle, and no spatializer, into a free
      slot keeps the discipline. */
  lemma InstallKeepsHandles(a: seq<Slot>, amb: seq<Option<Channel>>, st: Status, dsps: set<Dsp>, n: int,
                            k: nat, s: Slot)
    requires HandlesOk(a, amb, st, dsps, n) && k < |a| && a[k].channel.None?
    requires s.channel.Some? && s.channel.value in st && Unused(a, amb, s.channel.value)
    requires s.spatializer.None? && (s.sfx.Some? ==> 0 <= s.sfx.value < n)
    ensures HandlesOk(a[k := s], amb, st, dsps, n)
  {
    var b := a[k := s];
    forall i, j | 0 <= i < |b| && 0 <= j < |b| && i != j && b[i].channel.Some?
      ensures b[i].channel != b[j].channel
    {
      if i == k {
        assert b[j] == a[j];
      } else if j == k {
        assert b[i] == a[i];
      }
    }
    forall i, j | 0 <= i < |amb| && 0 <= j < |b| && amb[i].Some?
      ensures amb[i] != b[j].channel
    {
      if j != k {
        assert b[j] == a[j];
      }
    }
  }

  /** No slot holds d as its spatializer. This is all the discipline asks of a
      DSP the mixer hands out, which may be one released earlier. */
  predicate DspUnheld(slots: seq<Slot>, d: Dsp) {
    forall i :: 0 <= i < |slots| ==> slots[i].spatializer != Some(d)
  }

  /** Freeing slots, and tracking a slot without a spatializer, leave a DSP
      nobody holds unheld. */
  lemma FreeMatchingKeepsUnheld(a: seq<Slot>, entnum: int, entchannel: int, d: Dsp)
    requires DspUnheld(a, d)
    ensures DspUnheld(FreeMatching(a, entnum, entchannel), d)
  {
  }

  lemma TrackKeepsUnheld(a: seq<Slot>, st: Status, s: Slot, d: Dsp)
    requires DspUnheld(a, d) && s.spatializer.None?
    ensures DspUnheld(TrackSlots(a, st, s), d)
  {
  }

  /** Giving an occupied slot a DSP no slot holds keeps the discipline. */
  lemma AttachKeepsHandles(a: seq<Slot>, amb: seq<Option<Channel>>, st: Status, dsps: set<Dsp>, n: int,
                           k: nat, d: Dsp)
    requires HandlesOk(a, amb, st, dsps, n) && k < |a| && a[k].channel.Some? && DspUnheld(a, d)
    ensures HandlesOk(a[k := a[k].(spatializer := Some(d))], amb, st, dsps + {d}, n)
  {
    var b := a[k := a[k].(spatializer := Some(d))];
    forall i, j | 0 <= i < |b| && 0 <= j < |b| && i != j && b[i].spatializer.Some?
      ensures b[i].spatializer != b[j].spatializer
    {
      if i == k {
        assert b[j] == a[j];
      } else if j == k {
        assert b[i] == a[i];
      }
    }
    forall i, j | 0 <= i < |b| && 0 <= j < |b| && i != j && b[i].channel.Some?
      ensures b[i].channel != b[j].channel
    {
      if i == k {
        assert b[j] == a[j];
      } else if j == k {
        assert b[i] == a[i];
      }
    }
  }

  /** Giving an ambient loop an unused handle keeps the discipline. */
  lemma AmbientInstallKeepsHandles(a: seq<Slot>, amb: seq<Option<Channel>>, st: Status, dsps: set<Dsp>, n: int,
                                   i: nat, h: Channel)
    requires HandlesOk(a, amb, st, dsps, n) && i < |amb| && h in st && Unused(a, amb, h)
    ensures HandlesOk(a, amb[i := Some(h)], st, dsps, n)
  {
  }
}
