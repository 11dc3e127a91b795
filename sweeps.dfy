/** The two per-frame sweeps over the whole pool, as functions of the pool:
    S_UpdateMovingSounds, which gives up for the frame at the first slot the
    mixer fails on, and Atmoky_UpdateSpatializers, which visits every slot. */
module Sweeps {
  import opened Options
  import opened Vectors
  import opened Mixer
  import opened Motion
  import opened Slots
  import opened Frame

  /** No handle is held by two slots. */
  predicate ChannelsDistinct(slots: seq<Slot>) {
    forall i, j :: 0 <= i < |slots| && 0 <= j < |slots| && i != j && slots[i].channel.Some? ==>
      slots[i].channel != slots[j].channel
  }

  /** No spatializer is held by two slots. */
  predicate SpatializersDistinct(slots: seq<Slot>) {
    forall i, j :: 0 <= i < |slots| && 0 <= j < |slots| && i != j && slots[i].spatializer.Some? ==>
      slots[i].spatializer != slots[j].spatializer
  }

  lemma FirstWhereAgree<T>(xs: seq<T>, ys: seq<T>, p: T -> bool, q: T -> bool, from: nat)
    requires from <= |xs| == |ys|
    requires forall j :: from <= j < |xs| ==> p(xs[j]) == q(ys[j])
    ensures FirstWhere(xs, p, from) == FirstWhere(ys, q, from)
    decreases |xs| - from
  {
    if from < |xs| {
      FirstWhereAgree(xs, ys, p, q, from + 1);
    }
  }

  // ------------------------------------------------------------------
  // S_UpdateMovingSounds

  datatype Moved = Moved(slots: seq<Slot>, st: Status)

  /** S_UpdateMovingSounds from slot i on: each slot takes its MoveStep, each
      successful push reaches the mixer, and the first abort ends the frame. */
  function MoveSweep(slots: seq<Slot>, st: Status, w: World, sqrt: real -> real, i: nat): Moved
    requires IsSqrt(sqrt) && i <= |slots|
    decreases |slots| - i
  {
    if i == |slots| then Moved(slots, st)
    else
      var o := MoveStep(slots[i], st, w, sqrt);
      var st' := if o.push.Some? then Set3DAttributes(st, slots[i].channel.value, o.push.value.position,
                                                      o.push.value.velocity)
                 else st;
      if o.abort then Moved(slots[i := o.slot], st')
      else MoveSweep(slots[i := o.slot], st', w, sqrt, i + 1)
  }

  /** The slot at or after i at which the moving sweep gives up, or |slots|
      when it reaches the end. */
  function MoveStop(slots: seq<Slot>, st: Status, w: World, i: nat): (k: nat)
    requires i <= |slots|
    ensures i <= k <= |slots|
    ensures k < |slots| ==> MoveAborts(slots[k], st, w)
    ensures forall j :: i <= j < k ==> !MoveAborts(slots[j], st, w)
  {
    FirstWhere(slots, s => MoveAborts(s, st, w), i)
  }

  /** A slot's step looks at the mixer only through what a push does not
      change: liveness, failure flags and mode. */
  lemma MoveStepKind(s: Slot, st: Status, st': Status, w: World, sqrt: real -> real)
    requires IsSqrt(sqrt) && SameKind(st, st')
    ensures MoveStep(s, st', w, sqrt) == MoveStep(s, st, w, sqrt)
    ensures MoveAborts(s, st', w) == MoveAborts(s, st, w)
  {
  }

  /** The slots after the moving sweep: every slot up to and including the one
      it gives up at takes its own step, judged against the mixer as it was
      when the sweep began; the slots after it are untouched; the mixer keeps
      every voice's liveness and mode. */
  lemma {:induction false} MoveSweepSlots(a: seq<Slot>, t: Status, w: World, sqrt: real -> real, i: nat)
    requires IsSqrt(sqrt) && i <= |a|
    ensures var r := MoveSweep(a, t, w, sqrt, i);
            var k := MoveStop(a, t, w, i);
            |r.slots| == |a| && SameKind(t, r.st)
            && forall j :: 0 <= j < |a| ==>
                 r.slots[j] == if i <= j <= k then MoveStep(a[j], t, w, sqrt).slot else a[j]
    decreases |a| - i
  {
    if i < |a| {
      var o := MoveStep(a[i], t, w, sqrt);
      var t' := if o.push.Some? then Set3DAttributes(t, a[i].channel.value, o.push.value.position,
                                                     o.push.value.velocity)
                else t;
      assert SameKind(t, t') by {
        if o.push.Some? {
          Set3DAttributesKeepsKind(t, a[i].channel.value, o.push.value.position, o.push.value.velocity);
        }
      }
      if !o.abort {
        var a' := a[i := o.slot];
        MoveSweepSlots(a', t', w, sqrt, i + 1);
        var r := MoveSweep(a', t', w, sqrt, i + 1);
        SameKindTrans(t, t', r.st);
        forall j | i < j < |a|
          ensures MoveStep(a'[j], t', w, sqrt) == MoveStep(a[j], t, w, sqrt)
          ensures MoveAborts(a'[j], t', w) == MoveAborts(a[j], t, w)
        {
          MoveStepKind(a[j], t, t', w, sqrt);
        }
        FirstWhereAgree(a', a, s => MoveAborts(s, t', w), s => MoveAborts(s, t, w), i + 1);
        assert MoveStop(a, t, w, i) == MoveStop(a, t, w, i + 1);
      }
    }
  }

  /** Slot j's voice received a new position from the sweep between i and k. */
  predicate Pushed(a: seq<Slot>, t: Status, w: World, sqrt: real -> real, i: nat, k: nat, g: Channel)
    requires IsSqrt(sqrt)
  {
    exists j :: i <= j <= k && j < |a| && a[j].channel == Some(g) && MoveStep(a[j], t, w, sqrt).push.Some?
  }

  /** One non-aborting step of the moving sweep, seen from slot i + 1 on: the
      remaining slots, their steps and the stopping slot are as before, and the
      channels stay distinct. */
  lemma MoveSweepAdvance(a: seq<Slot>, t: Status, w: World, sqrt: real -> real, i: nat)
    requires IsSqrt(sqrt) && i < |a| && ChannelsDistinct(a) && !MoveStep(a[i], t, w, sqrt).abort
    ensures var o := MoveStep(a[i], t, w, sqrt);
            var t' := if o.push.Some? then Set3DAttributes(t, a[i].channel.value, o.push.value.position,
                                                           o.push.value.velocity)
                      else t;
            var a' := a[i := o.slot];
            ChannelsDistinct(a')
            && MoveStop(a, t, w, i) == MoveStop(a', t', w, i + 1)
            && (forall j :: i < j < |a| ==> a'[j] == a[j] && MoveStep(a'[j], t', w, sqrt) == MoveStep(a[j], t, w, sqrt))
  {
    var o := MoveStep(a[i], t, w, sqrt);
    var t' := if o.push.Some? then Set3DAttributes(t, a[i].channel.value, o.push.value.position,
                                                   o.push.value.velocity)
              else t;
    if o.push.Some? {
      Set3DAttributesKeepsKind(t, a[i].channel.value, o.push.value.position, o.push.value.velocity);
    }
    var a' := a[i := o.slot];
    assert ChannelsDistinct(a') by {
      forall x, y | 0 <= x < |a'| && 0 <= y < |a'| && x != y && a'[x].channel.Some?
        ensures a'[x].channel != a'[y].channel
      {
        assert a'[x].channel == a[x].channel;
        assert a'[y].channel == a[y].channel || a'[y].channel.None?;
      }
    }
    forall j | i < j < |a|
      ensures MoveStep(a'[j], t', w, sqrt) == MoveStep(a[j], t, w, sqrt)
      ensures MoveAborts(a'[j], t', w) == MoveAborts(a[j], t, w)
    {
      MoveStepKind(a[j], t, t', w, sqrt);
    }
    FirstWhereAgree(a', a, s => MoveAborts(s, t', w), s => MoveAborts(s, t, w), i + 1);
  }

  /** The mixer after the moving sweep: each voice the sweep pushed holds its
      own slot's position and velocity. */
  lemma {:induction false} MoveSweepPushes(a: seq<Slot>, t: Status, w: World, sqrt: real -> real, i: nat)
    requires IsSqrt(sqrt) && i <= |a| && ChannelsDistinct(a)
    ensures var r := MoveSweep(a, t, w, sqrt, i);
            forall j :: i <= j <= MoveStop(a, t, w, i) && j < |a| && MoveStep(a[j], t, w, sqrt).push.Some? ==>
              var p := MoveStep(a[j], t, w, sqrt).push.value;
              a[j].channel.value in r.st
              && r.st[a[j].channel.value] == t[a[j].channel.value].(position := p.position, velocity := p.velocity)
    decreases |a| - i
  {
    if i < |a| && !MoveStep(a[i], t, w, sqrt).abort {
      var o := MoveStep(a[i], t, w, sqrt);
      var t' := if o.push.Some? then Set3DAttributes(t, a[i].channel.value, o.push.value.position,
                                                     o.push.value.velocity)
                else t;
      var a' := a[i := o.slot];
      MoveSweepAdvance(a, t, w, sqrt, i);
      MoveSweepPushes(a', t', w, sqrt, i + 1);
      MoveSweepLeaves(a', t', w, sqrt, i + 1);
      var r := MoveSweep(a', t', w, sqrt, i + 1);
      var k := MoveStop(a, t, w, i);
      forall j | i <= j <= k && j < |a| && MoveStep(a[j], t, w, sqrt).push.Some?
        ensures var p := MoveStep(a[j], t, w, sqrt).push.value;
                a[j].channel.value in r.st
                && r.st[a[j].channel.value] == t[a[j].channel.value].(position := p.position, velocity := p.velocity)
      {
        if j == i {
          assert !Pushed(a', t', w, sqrt, i + 1, k, a[i].channel.value);
        } else {
          assert a[j].channel != a[i].channel;
        }
      }
    }
  }

  /** The mixer after the moving sweep: every voice the sweep did not push is
      as it was. */
  lemma {:induction false} MoveSweepLeaves(a: seq<Slot>, t: Status, w: World, sqrt: real -> real, i: nat)
    requires IsSqrt(sqrt) && i <= |a| && ChannelsDistinct(a)
    ensures var r := MoveSweep(a, t, w, sqrt, i);
            forall g :: g in t && !Pushed(a, t, w, sqrt, i, MoveStop(a, t, w, i), g) ==> g in r.st && r.st[g] == t[g]
    decreases |a| - i
  {
    if i < |a| && !MoveStep(a[i], t, w, sqrt).abort {
      var o := MoveStep(a[i], t, w, sqrt);
      var t' := if o.push.Some? then Set3DAttributes(t, a[i].channel.value, o.push.value.position,
                                                     o.push.value.velocity)
                else t;
      var a' := a[i := o.slot];
      MoveSweepAdvance(a, t, w, sqrt, i);
      MoveSweepLeaves(a', t', w, sqrt, i + 1);
      var k := MoveStop(a, t, w, i);
      forall g | g in t && !Pushed(a, t, w, sqrt, i, k, g)
        ensures !Pushed(a', t', w, sqrt, i + 1, k, g)
      {
      }
    } else if i < |a| {
      assert MoveStop(a, t, w, i) == i;
    }
  }

  /** After the moving sweep, no slot it reached is left holding a finished
      channel without a spatializer. */
  lemma MoveSweepReaps(a: seq<Slot>, t: Status, w: World, sqrt: real -> real)
    requires IsSqrt(sqrt)
    ensures var r := MoveSweep(a, t, w, sqrt, 0);
            |r.slots| == |a| && forall j :: 0 <= j <= MoveStop(a, t, w, 0) && j < |a| ==>
                                  !StaleUnspatialized(r.slots[j], r.st)
  {
    MoveSweepSlots(a, t, w, sqrt, 0);
    var r := MoveSweep(a, t, w, sqrt, 0);
    forall j | 0 <= j <= MoveStop(a, t, w, 0) && j < |a|
      ensures !StaleUnspatialized(r.slots[j], r.st)
    {
      MoveStepReapsAndEstimates(a[j], t, w, sqrt);
    }
  }

  /** The moving sweep keeps the handle discipline. */
  lemma MoveSweepKeepsHandles(a: seq<Slot>, amb: seq<Option<Channel>>, t: Status, dsps: set<Dsp>, n: int,
                              w: World, sqrt: real -> real)
    requires IsSqrt(sqrt) && HandlesOk(a, amb, t, dsps, n)
    ensures var r := MoveSweep(a, t, w, sqrt, 0); HandlesOk(r.slots, amb, r.st, dsps, n)
  {
    MoveSweepSlots(a, t, w, sqrt, 0);
    var r := MoveSweep(a, t, w, sqrt, 0);
    NarrowingKeepsHandles(a, r.slots, amb, amb, t, r.st, dsps, dsps, n, n);
  }

  // ------------------------------------------------------------------
  // Atmoky_UpdateSpatializers

  datatype Spatialized = Spatialized(slots: seq<Slot>, dsps: map<Dsp, DspAttributes>)

  /** Atmoky_UpdateSpatializers from slot i on: each slot takes its
      SpatialStep and each parameter block is written into its DSP. */
  function SpatialSweep(slots: seq<Slot>, st: Status, dsps: map<Dsp, DspAttributes>, w: World,
                        listener: Listener, sqrt: real -> real, i: nat): Spatialized
    requires IsSqrt(sqrt) && i <= |slots|
    decreases |slots| - i
  {
    if i == |slots| then Spatialized(slots, dsps)
    else
      var o := SpatialStep(slots[i], st, w, listener, sqrt);
      var dsps' := if o.write.Some? then dsps[o.write.value.0 := o.write.value.1] else dsps;
      SpatialSweep(slots[i := o.slot], st, dsps', w, listener, sqrt, i + 1)
  }

  /** The whole sweep of one frame, which does nothing without Atmoky. */
  function SpatialUpdate(atmoky: bool, slots: seq<Slot>, st: Status, dsps: map<Dsp, DspAttributes>, w: World,
                         listener: Listener, sqrt: real -> real): Spatialized
    requires IsSqrt(sqrt)
  {
    if atmoky then SpatialSweep(slots, st, dsps, w, listener, sqrt, 0) else Spatialized(slots, dsps)
  }

  /** Slot j's spatializer is d and the sweep writes it, between i and the end. */
  predicate Written(a: seq<Slot>, t: Status, w: World, listener: Listener, sqrt: real -> real, i: nat, d: Dsp)
    requires IsSqrt(sqrt)
  {
    exists j :: i <= j < |a| && a[j].spatializer == Some(d) && SpatialStep(a[j], t, w, listener, sqrt).write.Some?
  }

  /** The effect of the spatializer sweep: every slot from i on takes its own
      step, every DSP written holds its own slot's parameter block, and every
      other DSP keeps its parameters. */
  lemma {:induction false} SpatialSweepEffect(a: seq<Slot>, t: Status, dsps: map<Dsp, DspAttributes>, w: World,
                                              listener: Listener, sqrt: real -> real, i: nat)
    requires IsSqrt(sqrt) && i <= |a| && SpatializersDistinct(a)
    ensures var r := SpatialSweep(a, t, dsps, w, listener, sqrt, i);
            |r.slots| == |a| && dsps.Keys <= r.dsps.Keys
            && (forall j :: 0 <= j < |a| ==>
                  r.slots[j] == if i <= j then SpatialStep(a[j], t, w, listener, sqrt).slot else a[j])
            && (forall j :: i <= j < |a| && SpatialStep(a[j], t, w, listener, sqrt).write.Some? ==>
                  var wr := SpatialStep(a[j], t, w, listener, sqrt).write.value;
                  wr.0 in r.dsps && r.dsps[wr.0] == wr.1)
            && (forall d :: d in dsps && !Written(a, t, w, listener, sqrt, i, d) ==>
                  d in r.dsps && r.dsps[d] == dsps[d])
    decreases |a| - i
  {
    if i < |a| {
      var o := SpatialStep(a[i], t, w, listener, sqrt);
      var dsps' := if o.write.Some? then dsps[o.write.value.0 := o.write.value.1] else dsps;
      var a' := a[i := o.slot];
      assert SpatializersDistinct(a') by {
        forall x, y | 0 <= x < |a'| && 0 <= y < |a'| && x != y && a'[x].spatializer.Some?
          ensures a'[x].spatializer != a'[y].spatializer
        {
          assert a'[x].spatializer == a[x].spatializer;
          assert a'[y].spatializer == a[y].spatializer || a'[y].spatializer.None?;
        }
      }
      SpatialSweepEffect(a', t, dsps', w, listener, sqrt, i + 1);
      var r := SpatialSweep(a', t, dsps', w, listener, sqrt, i + 1);
      forall j | i <= j < |a| && SpatialStep(a[j], t, w, listener, sqrt).write.Some?
        ensures var wr := SpatialStep(a[j], t, w, listener, sqrt).write.value;
                wr.0 in r.dsps && r.dsps[wr.0] == wr.1
      {
        if j == i {
          forall x | i + 1 <= x < |a| ensures a'[x] == a[x] { }
        } else {
          assert a'[j] == a[j];
        }
      }
      forall d | d in dsps && !Written(a, t, w, listener, sqrt, i, d)
        ensures d in r.dsps && r.dsps[d] == dsps[d]
      {
        forall x | i + 1 <= x < |a| ensures a'[x] == a[x] { }
      }
    }
  }

  /** After the spatializer sweep no slot holds a spatializer on a finished
      channel: each such slot was freed and its DSP released. */
  lemma SpatialSweepReaps(a: seq<Slot>, t: Status, dsps: map<Dsp, DspAttributes>, w: World,
                          listener: Listener, sqrt: real -> real)
    requires IsSqrt(sqrt) && SpatializersDistinct(a)
    requires forall j :: 0 <= j < |a| && a[j].spatializer.Some? ==> a[j].channel.Some?
    ensures var r := SpatialSweep(a, t, dsps, w, listener, sqrt, 0);
            forall j :: 0 <= j < |r.slots| && r.slots[j].spatializer.Some? ==> ChannelIsPlaying(t, r.slots[j].channel)
  {
    SpatialSweepEffect(a, t, dsps, w, listener, sqrt, 0);
  }

  /** The spatializer sweep keeps the handle discipline. */
  lemma SpatialUpdateKeepsHandles(atmoky: bool, a: seq<Slot>, amb: seq<Option<Channel>>, t: Status,
                                  dsps: map<Dsp, DspAttributes>, n: int, w: World, listener: Listener,
                                  sqrt: real -> real)
    requires IsSqrt(sqrt) && HandlesOk(a, amb, t, dsps.Keys, n)
    ensures var r := SpatialUpdate(atmoky, a, t, dsps, w, listener, sqrt); HandlesOk(r.slots, amb, t, r.dsps.Keys, n)
  {
    if atmoky {
      SpatialSweepEffect(a, t, dsps, w, listener, sqrt, 0);
      var r := SpatialSweep(a, t, dsps, w, listener, sqrt, 0);
      NarrowingKeepsHandles(a, r.slots, amb, amb, t, t, dsps.Keys, r.dsps.Keys, n, n);
    }
  }
}
