# A verified model of the bookkeeping core of ZQuake's FMOD sound layer

`source/snd_fmod.c` sits between the game client and the FMOD mixer. On its own
side of that boundary it keeps four pieces of plain data, all updated in place
by loops over fixed tables:

- the **sound registry**: `known_sfx` and `fmod_sounds`, two parallel growable
  arrays of names and load records, filled by `S_FindName`, grown by
  `GrowSfxArrays` and loaded at most once per name by `FMOD_LoadSfx`;
- the **channel pool** `fmod_channels`: one slot per tracked voice, handed out
  by `AllocChannel` (free or finished slots first, then a virtual voice is
  stolen), searched by `FindChannel`, and filled in by `S_StartSound` (which
  first stops what the entity already plays on that channel) and
  `S_StaticSound`;
- the **per-frame spatial update**: `S_UpdateMovingSounds` and
  `Atmoky_UpdateSpatializers` move each tracked sound with its entity,
  estimate its velocity (zero after a teleport, clamped to a maximum speed)
  and reap slots whose voice has finished; `ComputeRelative3DAttributes`
  projects a position onto the listener's basis;
- the **ambient fader** `S_UpdateAmbientSounds`, which steps each
  `ambient_vol[i]` towards its leaf's target and restarts a finished ambient
  loop, and the **blocking counter** of `S_BlockSound`/`S_UnblockSound`.

The model has the source's own shape. The global tables are the fields of one
class, `SoundSystem.Sound`. `fmod_channels`, `ambient_sfx`,
`ambient_fmod_channels` and `ambient_vol` are fixed arrays. `known_sfx` and
`fmod_sounds` are arrays that `GrowSfxArrays` replaces with larger copies. Each
C loop is a `while` loop with its invariants. Every method is proved against a
specification function over values (modules `Slots`, `Frame`, `Starting`,
`Sweeps`, `Ambience`), and the properties the layer promises are proved as
lemmas about those functions.

The FMOD mixer is an abstract map `status` from channel handle to the state of
its voice: playing, virtual, 2D or 3D, looping, position, velocity, range and
volume (module `Mixer`). The spatializer DSPs are a map `dspParams` from DSP
handle to the parameter block last written into it. Pointers into the
registry are indices. A handle the mixer hands out (from
`FMOD_System_PlaySound` or `FMOD_System_CreateDSPByPlugin`) is a parameter of
the operation that receives it, with `None` for a call that fails.
Everything the game supplies is a parameter too: entity origins, the frame
time, the player's entity number, leaf levels and cvars, and the outcome of
reading and decoding a sound file. `sqrtf` is a parameter `sqrt` constrained
by `IsSqrt` (`sqrt(x) >= 0` and `sqrt(x) * sqrt(x) == x` for `x >= 0`).
Arithmetic is over `real`.

Every operation keeps one invariant, `SoundSystem.Sound.Valid`, which has two
parts:

- `RegistryOk`: the table sizes, distinct names each shorter than `MAX_QPATH`,
  every ambient sound registered, and `snd_blocked > 0` exactly when the master
  group is muted;
- `Slots.HandlesOk`, the handle discipline:
  - every handle a slot or an ambient loop holds is one the mixer issued;
  - no handle is held twice;
  - every spatializer is a DSP the layer created, held by exactly one occupied
    slot;
  - every sound index is inside the table (below max_sfx).

## Model

| member | source | states |
|---|---|---|
| Vectors.QVec | source/snd_fmod.c:268-274 | definition, no contract: a Quake vector read as an FMOD vector component for component |
| Vectors.Sub | source/snd_fmod.c:321-327 | definition, no contract: FMOD_VecSub, the componentwise difference; ComputeRelative3DAttributes and EstimateVelocity build on it |
| Vectors.Dot | source/snd_fmod.c:329-331 | definition, no contract: FMOD_Dot; DotCombine states its linearity |
| Vectors.Cross | source/snd_fmod.c:333-339 | definition, no contract: FMOD_Cross; CrossPerpendicular, Lagrange and RightCompletesBasis state its properties |
| Vectors.QToAtmokyDir | source/snd_fmod.c:313-319 | definition, no contract: the axis map (x, y, z) to (−y, z, x); AtmokyDirPreservesDot, AtmokyDirFlipsHandedness and AtmokyDirRoundTrip state its properties |
| Vectors.QToAtmokyPosMeters | source/snd_fmod.c:295-302 | definition, no contract: the axis map scaled by 1/QU_PER_METER; MetersIsScaledDir relates it to QToAtmokyDir |
| Vectors.QToAtmokyVelMeters | source/snd_fmod.c:304-311 | definition, no contract: the same arithmetic as the position conversion, which MetersIsScaledDir states |
| Vectors.ComputeRelative3DAttributes | source/snd_fmod.c:341-359 | the relative position and velocity are the listener-basis coordinates of the offsets from the listener; forward and up are the fixed (0,0,1) and (0,1,0) |
| Vectors.RelativeRecoversCoordinates | source/snd_fmod.c:341-359 | for an orthonormal listener basis, projecting listener + a·right + b·up + c·forward gives back exactly (a, b, c): projection inverts the basis |
| Vectors.RelativeAtListenerIsZero | source/snd_fmod.c:341-359 | a source at the listener's position and velocity has zero relative position and velocity |
| Vectors.DotCombine | source/snd_fmod.c:329-331 | the dot product is linear in a combination of three vectors |
| Vectors.CrossPerpendicular | source/snd_fmod.c:333-339 | FMOD_Cross(a, b) is perpendicular to a and to b |
| Vectors.Lagrange | source/snd_fmod.c:333-339 | \|a×b\|² = \|a\|²\|b\|² − (a·b)² |
| Vectors.RightCompletesBasis | source/snd_fmod.c:1396-1397 | right = FMOD_Cross(up, forward) with unit, orthogonal up and forward makes the listener basis orthonormal |
| Vectors.AtmokyDirPreservesDot | source/snd_fmod.c:313-319 | the Quake-to-Atmoky axis map preserves dot products |
| Vectors.AtmokyDirFlipsHandedness | source/snd_fmod.c:313-319 | the axis map carries a cross product to the negated cross product of the images (it changes handedness) |
| Vectors.AtmokyDirRoundTrip | source/snd_fmod.c:313-319 | the inverse axis map undoes QToAtmokyDir and conversely |
| Vectors.MetersIsScaledDir | source/snd_fmod.c:295-312 | the position and velocity conversions are the axis map scaled by 1/QU_PER_METER, and they are identical |
| Motion.EstimateVelocity | source/snd_fmod.c:673-691 | definition, no contract: the velocity estimate both update loops make; the five lemmas below state its cases and its bound |
| Motion.NoHistoryMeansStill | source/snd_fmod.c:673-691 | without a previous origin, or with frametime <= 0, the estimated velocity is zero |
| Motion.TeleportMeansStill | source/snd_fmod.c:676-680 | a squared displacement above 1000² gives zero velocity |
| Motion.SlowMeansFiniteDifference | source/snd_fmod.c:682-683 | otherwise, below the speed limit, the velocity is move / frametime |
| Motion.ClampedLength | source/snd_fmod.c:684-687 | rescaling by 3000 / sqrt(speed²) gives a vector of speed exactly 3000 |
| Motion.ClampedDirection | source/snd_fmod.c:684-687 | the rescaled vector is a positive multiple of the raw one and shorter |
| Motion.FastIsClamped | source/snd_fmod.c:682-687 | above the limit the velocity has speed exactly 3000 and the direction of move / frametime |
| Motion.SpeedBounded | source/snd_fmod.c:673-691 | for every input the estimated speed is at most 3000 |
| Motion.StillAfterUpdate | source/snd_fmod.c:692-694 | after any update prev_origin == origin, so the next frame of a source that stays put has zero velocity, a teleport included |
| Motion.AmbientTarget | source/snd_fmod.c:934-936 | the target is level × leaf level when that is at least 8, and 0 when it is below 8 |
| Motion.FadeStep | source/snd_fmod.c:937-945 | definition, no contract: one frame of the fader; FadeStepIsClampedMove and FadeStepNoOvershoot state what it does |
| Motion.FadeStepIsClampedMove | source/snd_fmod.c:937-945 | fading up is min(target, vol + step), fading down is max(target, vol − step), at the target nothing moves |
| Motion.FadeStepNoOvershoot | source/snd_fmod.c:937-945 | the new volume lies between the old one and the target, moves by at most step, and reaches the target exactly when it was within step |
| Motion.MaxDistance | source/snd_fmod.c:1224-1228 | the range is NOMINAL_CLIP_DIST / attenuation when that is at least MIN_3D_DIST, and exactly MIN_3D_DIST + 1 when it is shorter |
| Motion.StaticMaxDistance | source/snd_fmod.c:1303-1310 | definition, no contract: the static range; StaticRangeIsScaled states its value and MaxDistanceAtLeastMin bounds it |
| Motion.StaticRangeIsScaled | source/snd_fmod.c:1303-1310 | a static sound has the range MaxDistance gives at attenuation / STATIC_ATTEN_DIV, and 100000 without attenuation |
| Motion.MaxDistanceAtLeastMin | source/snd_fmod.c:1217-1228 | the range of a started sound, and of a static sound, is never below MIN_3D_DIST, and is the nominal one when that is far enough |
| Mixer.PlayedVoice | source/snd_fmod.c:1189 | a new voice is playing, not virtual, not looping, in its sound's 2D or 3D mode |
| Mixer.Stop | source/snd_fmod.c:1184 | stopping a playing voice ends it; stopping a finished or unknown handle changes nothing; no handle is forgotten |
| Mixer.StopTouchesOnly | source/snd_fmod.c:1184 | stopping h changes no other voice |
| Mixer.StopSetEffect | source/snd_fmod.c:1339-1345 | stopping a set stops every playing voice in it, leaves none of it playing, and leaves every other voice as it was |
| Mixer.StopSetCompose | source/snd_fmod.c:1354-1360 | stopping one set and then another is stopping their union |
| Mixer.StopIdempotent | source/snd_fmod.c:566-573 | stopping twice is stopping once; a stopped voice is neither playing nor virtual |
| Mixer.StopSetIgnoresFinished | source/snd_fmod.c:1184 | adding finished voices to a stop set changes nothing |
| Mixer.StopSet | source/snd_fmod.c:885-893 | stopping a set of handles at once forgets no handle; StopSetEffect states what it stops |
| Mixer.SetMode | source/snd_fmod.c:1295-1297 | a playing voice takes the given 2D/3D and looping bits; a finished or unknown one is left alone |
| Mixer.SetMode2D | source/snd_fmod.c:1214-1215 | a playing voice becomes 2D and keeps its looping; a finished or unknown one is left alone |
| Mixer.SetVolume | source/snd_fmod.c:1235-1236 | a playing voice takes the volume; a finished or unknown one is left alone |
| Mixer.Set3DMinMaxDistance | source/snd_fmod.c:1232-1233 | a playing voice takes the range; a finished or unknown one is left alone |
| Mixer.Advances | source/snd_fmod.c:1439 | definition, no contract: what FMOD_System_Update may do to the voices between two calls into the layer: end a playing voice, make it virtual or real, or make it refuse GetMode or Set3DAttributes; a finished voice stays finished and no handle appears or disappears |
| Mixer.AdvancesMoves | source/snd_fmod.c:1439 | the mixer may leave every voice alone, end a playing voice, make it virtual, or make it refuse GetMode and Set3DAttributes |
| Mixer.AdvancesCompose | source/snd_fmod.c:1439-1453 | two mixer updates, from S_Update and S_ExtraUpdate, move the voices on as one update may |
| Mixer.SetModeFromRead2D | source/snd_fmod.c:426-432 | the Atmoky mode change makes a live voice 2D and keeps its looping unless reading the mode fails |
| Mixer.Set3DAttributes | source/snd_fmod.c:697 | a live voice that accepts it takes the new position and velocity; otherwise nothing changes |
| Mixer.SetModeKeepsLiveness | source/snd_fmod.c:1213-1236 | a mode setter creates, forgets, starts or stops no voice and touches only its own |
| Mixer.Set3DAttributesKeepsKind | source/snd_fmod.c:697 | placing a voice keeps every voice's liveness and mode and touches only its own |
| Mixer.SetVolumeKeepsKind | source/snd_fmod.c:1235 | setting a volume keeps every voice's liveness and mode and touches only its own |
| Mixer.Loop3DSetup | source/snd_fmod.c:1295-1314 | the setter sequence of a static 3D loop yields a 3D looping voice at the origin, at rest, with the given range and volume |
| Registry.SoundPath | source/snd_fmod.c:753 | the path is "sound/" followed by the name |
| Registry.LoadOutcome | source/snd_fmod.c:754-772 | definition, no contract: the sound FMOD_System_CreateSound gives for an asset, if any |
| Registry.ExpectedLoad | source/snd_fmod.c:739-782 | definition, no contract: the cached result once a load was attempted, else the asset's outcome; LoadIsCached and LoadSfx state what it means |
| Registry.LoadIsCached | source/snd_fmod.c:751-772 | a first load gives a sound exactly when the file exists and FMOD decodes it, and then that sound; after one attempt the record answers every later load with that attempt's result, whatever the asset would give now; a missing file is never retried |
| Registry.AppendKeepsNamesOk | source/snd_fmod.c:717-735 | appending a new name shorter than MAX_QPATH keeps the names distinct and short |
| Slots.FirstLive | source/snd_fmod.c:830-847 | the slot found is the lowest one that is occupied, playing and matches (entnum, entchannel), with -1 matching every channel; none is found exactly when no slot does |
| Slots.FirstWhere | source/snd_fmod.c:832-846 | the index found is the first one from the start that satisfies the test, or the end when none does |
| Slots.Matches | source/snd_fmod.c:833-838 | definition, no contract: a slot is occupied and tracked for entnum and, unless entchannel is -1, for entchannel |
| Slots.ReleaseSpatializer | source/snd_fmod.c:409-417 | definition, no contract: the slot loses its DSP and keeps the rest |
| Slots.Freed | source/snd_fmod.c:839-842 | definition, no contract: the DSP is released and the handle cleared, as every reaping site does; FreedNarrows and the KeepsHandles lemmas use it |
| Slots.ChooseSlotSpec | source/snd_fmod.c:856-878 | AllocChannel takes the lowest free or finished slot; failing that, the lowest virtual one; it fails exactly when every slot holds a playing, non-virtual voice |
| Slots.ChooseSlot | source/snd_fmod.c:856-878 | a slot chosen is in the pool; ChooseSlotSpec states which one |
| Slots.AllocIndex | source/snd_fmod.c:856-878 | the slot handed out is in the pool |
| Slots.AllocSlots | source/snd_fmod.c:860-876 | the pool keeps its size; AllocKeepsHandles and TrackEffect state what changes |
| Slots.StealTakesVirtual | source/snd_fmod.c:867-876 | the voice given up in the second pass is virtual and is not the new voice |
| Slots.AllocFailsIffAllAudible | source/snd_fmod.c:856-878 | AllocChannel returns NULL exactly when every slot holds an audible voice |
| Slots.AudibleNeverChosen | source/snd_fmod.c:856-878 | a slot holding a playing, non-virtual voice is never handed out |
| Slots.TrackEffect | source/snd_fmod.c:1195-1212 | allocating and filling a slot changes that slot alone; the mixer changes only by stopping a virtual voice |
| Slots.FreeMatching | source/snd_fmod.c:1339-1345 | every slot tracked for (entnum, entchannel) is freed, every other slot is as it was |
| Slots.FreedSomeThenAll | source/snd_fmod.c:1179-1188 | freeing some matching slots and then all of them is freeing all of them |
| Slots.StoppedAllMatching | source/snd_fmod.c:1179-1188 | once every matching slot is freed, having stopped only the playing matches is stopping all matches |
| Slots.NothingMatchedNothingFreed | source/snd_fmod.c:1334-1347 | with no match, S_StopSound changes neither the slots nor the mixer |
| Slots.InitialHandlesOk | source/snd_fmod.c:1060-1069 | zeroed slots and no ambient loop satisfy the handle discipline |
| Slots.NarrowingKeepsHandles | source/snd_fmod.c:409-417 | dropping handles, spatializers or sounds, and learning of more mixer handles, DSPs and sounds, keeps the discipline |
| Slots.AllocKeepsHandles | source/snd_fmod.c:856-878 | AllocChannel keeps the discipline and the slot it hands out is free |
| Slots.FreeMatchingKeepsHandles | source/snd_fmod.c:1334-1347 | freeing every matching slot keeps the discipline |
| Slots.InstallKeepsHandles | source/snd_fmod.c:1196-1205 | storing a slot holding a handle nobody holds, in a free slot, keeps the discipline |
| Slots.AttachKeepsHandles | source/snd_fmod.c:446 | giving an occupied slot a DSP that no slot holds keeps the discipline, even when the DSP is one released earlier |
| Slots.AmbientInstallKeepsHandles | source/snd_fmod.c:950-951 | giving an ambient loop a handle nobody holds keeps the discipline |
| Frame.StartedSlot | source/snd_fmod.c:1197-1211 | the new slot holds the voice, the entity and channel it was started for and the sound, with origin == prev_origin, have_prev_origin false and is_static false |
| Frame.StartOffset | source/snd_fmod.c:1206-1211 | definition, no contract: the offset from the entity, or none for the local player and entity-less sounds; StartedSlotFollowsEntity states what it means |
| Frame.StartedSlotFollowsEntity | source/snd_fmod.c:1206-1208 | the stored offset puts a sound started on an entity back where it was started while the entity stays put |
| Frame.StaticSlot | source/snd_fmod.c:1279-1287 | a static slot is entity 0, channel 0, static; with Atmoky it is at the origin with a previous origin, without Atmoky only the handle and the sound are set |
| Frame.Advanced | source/snd_fmod.c:692-694 | after an update origin == prev_origin == the current origin and have_prev_origin is true |
| Frame.MoveStep | source/snd_fmod.c:650-698 | one slot of S_UpdateMovingSounds: a finished voice's slot is freed; only a live, non-static, entity-following 3D voice without a spatializer is moved, to entity + offset, at a speed within the limit; the step aborts exactly when the mixer fails GetMode or Set3DAttributes |
| Frame.MoveStepReapsAndEstimates | source/snd_fmod.c:655-694 | after its step no unspatialized slot holds a finished voice, and the velocity pushed is EstimateVelocity of the slot's motion |
| Frame.PlayerSoundsStayPut | source/snd_fmod.c:659-664 | sounds of the local player, entity-less sounds and static sounds are never moved |
| Frame.SpatialAttributes | source/snd_fmod.c:628-639 | the block written holds the position and velocity in metres on Atmoky axes, the fixed frame, and their listener-relative form |
| Frame.SpatialStep | source/snd_fmod.c:591-642 | one slot of Atmoky_UpdateSpatializers: a slot without voice or spatializer is skipped; one on a finished voice is freed and its DSP released; otherwise it is advanced to its current origin and its block is written |
| Frame.SpatialOrigin | source/snd_fmod.c:599-604 | definition, no contract: a live entity's position plus the offset, else where the slot already is |
| Frame.StaticSpatialIsStill | source/snd_fmod.c:599-631 | a static spatialized sound that has not moved is written at its origin in metres with zero velocity |
| Starting.StaticVoice | source/snd_fmod.c:1264-1316 | a static voice is a playing loop at vol / 255, 2D with Atmoky and 3D without |
| Starting.StaticSetup | source/snd_fmod.c:1265-1314 | the setter sequences of both branches of S_StaticSound give exactly that voice |
| Starting.Attach | source/snd_fmod.c:419-479 | definition, no contract: Atmoky_AttachSpatializer on the pool; ConfigureEffect and StaticSpatializedEffect state its effect |
| Starting.Configure | source/snd_fmod.c:1213-1236 | definition, no contract: the mode branch and volume of S_StartSound; ConfigureEffect states its effect |
| Starting.Track | source/snd_fmod.c:1195-1212 | definition, no contract: AllocChannel and the filling in of the slot; TrackFreshVoices and TrackFreshSlots state its effect |
| Starting.StopFor | source/snd_fmod.c:1179-1188 | definition, no contract: the stop loop; StopForEffect states its effect |
| Starting.Started | source/snd_fmod.c:1189-1236 | definition, no contract: S_StartSound after PlaySound; StartedVoices and StartedSlots state its effect |
| Starting.StartPool | source/snd_fmod.c:1179-1239 | definition, no contract: S_StartSound once the sound has loaded; the StartSound lemmas below state its effect |
| Starting.StaticStarted | source/snd_fmod.c:1264-1326 | definition, no contract: S_StaticSound after PlaySound; the StaticSound lemmas below state its effect |
| Starting.StaticSpatialized | source/snd_fmod.c:1264-1293 | definition, no contract: the Atmoky branch of S_StaticSound; StaticSpatializedEffect states its effect |
| Starting.ConfigureEffect | source/snd_fmod.c:1213-1236 | the mode branch touches only the new voice: 2D for the local player, for no attenuation and for a tracked voice with Atmoky, else 3D at the origin with the MaxDistance range; volume fvol; a spatializer and its block only when Atmoky attaches one |
| Starting.StopForEffect | source/snd_fmod.c:1179-1188 | the stop loop only frees slots, leaves nothing tracked for (entnum, entchannel) when entchannel != 0 (is a no-op when it is 0), and disturbs no audible voice outside the matched ones |
| Starting.StartedVoices | source/snd_fmod.c:1189-1236 | the new voice joins the mixer configured as above; it goes untracked exactly when every slot holds an audible voice; no audible voice is disturbed |
| Starting.StartedSlots | source/snd_fmod.c:1195-1222 | only the slot handed out changes; it is the one slot holding the voice, filled in as StartedSlot says, with the spatializer if one is attached |
| Starting.StartSoundVoice | source/snd_fmod.c:1179-1238 | S_StartSound adds exactly the new voice to the mixer, playing once at fvol, 2D or placed as its branch says; when PlaySound fails only the stop loop happens |
| Starting.StartSoundSlot | source/snd_fmod.c:1179-1222 | the new voice is held by at most one slot, filled in as S_StartSound does; every other slot is as the stop loop left it; a DSP block is added exactly when a spatializer is attached |
| Starting.StartSoundReplaces | source/snd_fmod.c:1179-1212 | for entchannel != 0 the only sound tracked for (entnum, entchannel) afterwards is the new one |
| Starting.StartSoundKeepsAudible | source/snd_fmod.c:1179-1212 | no audible voice is disturbed except those the stop loop stops |
| Starting.StartSoundUntracked | source/snd_fmod.c:1189-1196 | the sound plays untracked exactly when, after the stop loop, every slot holds an audible voice, and then every slot still does |
| Starting.TrackFreshVoices | source/snd_fmod.c:1277-1289 | a fresh voice joins the mixer with nothing audible disturbed, and goes untracked exactly when every slot is audible |
| Starting.TrackFreshSlots | source/snd_fmod.c:1317-1325 | tracking changes only the slot handed out, which is then the one slot holding the voice |
| Starting.StaticSpatializedEffect | source/snd_fmod.c:1264-1293 | the Atmoky branch of S_StaticSound tracks the 2D loop, attaches a spatializer to its slot when one is created, and sets vol / 255 |
| Starting.StaticFinish | source/snd_fmod.c:1264-1326 | both branches of S_StaticSound are "track the voice" followed, with Atmoky, by the attach and the volume |
| Starting.StaticSoundVoice | source/snd_fmod.c:1258-1326 | S_StaticSound adds exactly the configured loop to the mixer and disturbs no audible voice |
| Starting.StaticSoundUntracked | source/snd_fmod.c:1277-1325 | the loop goes untracked exactly when every slot holds an audible voice, and then every slot still does |
| Starting.StaticSoundSlot | source/snd_fmod.c:1277-1325 | the loop is held by at most one slot, filled in as StaticSlot says, with the spatializer if attached; every other slot is unchanged |
| Starting.StartPoolKeepsHandles | source/snd_fmod.c:1179-1236 | S_StartSound keeps the handle discipline |
| Starting.StaticStartedKeepsHandles | source/snd_fmod.c:1258-1326 | S_StaticSound keeps the handle discipline |
| Sweeps.MoveSweep | source/snd_fmod.c:646-700 | definition, no contract: each slot takes its MoveStep and the first abort ends the frame; the MoveSweep lemmas below state its effect |
| Sweeps.MoveStop | source/snd_fmod.c:649-698 | the moving sweep ends at the first slot whose step aborts, or at the end |
| Sweeps.MoveStepKind | source/snd_fmod.c:653-669 | a slot's step depends on the mixer only through liveness, failure flags and mode, which pushes do not change |
| Sweeps.MoveSweepSlots | source/snd_fmod.c:646-700 | every slot up to and including the one the sweep aborts at takes its own step, judged against the mixer as it was; later slots are untouched; no voice changes liveness or mode |
| Sweeps.MoveSweepPushes | source/snd_fmod.c:692-698 | each voice the sweep moved holds its own slot's new position and velocity |
| Sweeps.MoveSweepLeaves | source/snd_fmod.c:646-700 | every voice the sweep did not move is as it was |
| Sweeps.MoveSweepReaps | source/snd_fmod.c:655-657 | no slot the sweep reached is left holding a finished voice without a spatializer |
| Sweeps.MoveSweepKeepsHandles | source/snd_fmod.c:646-700 | the moving sweep keeps the handle discipline |
| Sweeps.SpatialSweep | source/snd_fmod.c:587-643 | definition, no contract: each slot takes its SpatialStep; SpatialSweepEffect and SpatialSweepReaps state its effect |
| Sweeps.SpatialUpdate | source/snd_fmod.c:582-644 | definition, no contract: the sweep, or nothing without Atmoky; SpatialUpdateKeepsHandles and UpdateSpatializers use it |
| Sweeps.SpatialSweepEffect | source/snd_fmod.c:587-643 | every slot takes its own step; every DSP written holds its own slot's block; every other DSP keeps its parameters |
| Sweeps.SpatialSweepReaps | source/snd_fmod.c:592-598 | afterwards no slot holds a spatializer on a finished voice |
| Sweeps.SpatialUpdateKeepsHandles | source/snd_fmod.c:582-644 | the spatializer sweep keeps the handle discipline |
| Ambience.AmbientUpdate | source/snd_fmod.c:912-972 | definition, no contract: the three branches of S_UpdateAmbientSounds; AmbientUpdateVolumes and AmbientUpdateKeepsHandles state its effect |
| Ambience.AmbientSweep | source/snd_fmod.c:931-971 | the fading loop keeps the number of ambients, volumes and records; the AmbientSweep lemmas state its effect |
| Ambience.AmbientStep | source/snd_fmod.c:932-970 | one iteration keeps the number of ambients, volumes and records; AmbientStepFacts and AmbientStepVolume state its effect |
| Ambience.Silenced | source/snd_fmod.c:923-929 | definition, no contract: every held loop set to volume 0; SilencedEffect states its effect |
| Ambience.ReloadIsCached | source/snd_fmod.c:946-947 | once an ambient's sound was loaded, loading it again in a later iteration gives the same answer |
| Ambience.AmbientVoice | source/snd_fmod.c:950-959 | a restarted ambient loop is a new playing voice, 2D and looping |
| Ambience.AmbientStepFacts | source/snd_fmod.c:931-971 | one iteration changes only ambient i's handle and volume, only the voice it holds, no voice's liveness, and keeps the handles distinct |
| Ambience.AmbientStepVolume | source/snd_fmod.c:932-945 | one iteration fades ambient i's volume when it has a sound and keeps it otherwise |
| Ambience.AmbientSweepVolumes | source/snd_fmod.c:931-945 | each ambient with a sound takes one FadeStep towards its target; the others keep their volume |
| Ambience.AmbientSweepKeeps | source/snd_fmod.c:931-971 | the loop forgets no handle, changes no voice's liveness, and touches no voice that no ambient holds |
| Ambience.AmbientSweepChannels | source/snd_fmod.c:946-957 | a loop that still plays is kept; a finished one is replaced by the new handle when its sound loads, forgotten when PlaySound fails, and kept when the sound does not load, whatever the volume |
| Ambience.AmbientSweepPlaysAtVolume | source/snd_fmod.c:966-970 | every ambient loop with a sound that plays afterwards is at its faded volume / 255 |
| Ambience.SilencedEffect | source/snd_fmod.c:923-929 | outside the map every held loop is silenced and nothing else changes; no voice stops or starts |
| Ambience.AmbientUpdateVolumes | source/snd_fmod.c:918-945 | inactive: every loop stopped and forgotten, every volume 0; outside the map or at level 0: every volume 0 at once, loops kept; otherwise each volume moves towards its target by at most frametime × fade without overshooting |
| Ambience.AmbientUpdateKeepsHandles | source/snd_fmod.c:912-972 | S_UpdateAmbientSounds keeps the handle discipline and forgets no mixer handle |
| SoundSystem.Sound.constructor | source/snd_fmod.c:1060-1069 | an empty registry of SFX_INITIAL entries, every slot free, no ambient loop, nothing blocked; the invariant holds |
| SoundSystem.Sound.SfxIndex | source/snd_fmod.c:575-580 | a reference inside the table is its own index; anything else is -1 |
| SoundSystem.Sound.GrowSfxArrays | source/snd_fmod.c:224-266 | growth succeeds exactly when max_sfx + SFX_GROW stays below INT_MAX; then both tables are 256 entries longer, keep every old entry and are zeroed after it; registered names, records and every index held elsewhere are unchanged |
| SoundSystem.Sound.Regrow | source/snd_fmod.c:227-264 | the two reallocations: fresh arrays SFX_GROW longer holding the old contents at the front |
| SoundSystem.Sound.Extended | source/snd_fmod.c:230-245 | a new array of n elements holding the old one at its front and the fill value after it |
| SoundSystem.Sound.CopyPrefix | source/snd_fmod.c:240-243 | the copy leaves the source at the front of the destination and the rest of it as it was |
| SoundSystem.Sound.Lookup | source/snd_fmod.c:720-722 | the index of the name among the registered names, present exactly when it is registered |
| SoundSystem.Sound.FindName | source/snd_fmod.c:711-737 | a name of MAX_QPATH characters or more is fatal; a registered name returns its index and changes nothing; a new name is appended at num_sfx with an unloaded record, after growing a full table, and a table that cannot grow is fatal |
| SoundSystem.Sound.Register | source/snd_fmod.c:730-735 | the name is appended with an unloaded record and num_sfx grows by one |
| SoundSystem.Sound.TouchSound | source/snd_fmod.c:815-819 | the name is registered as S_FindName does and nothing is loaded |
| SoundSystem.Sound.LoadSfx | source/snd_fmod.c:739-782 | a null or out-of-table reference loads nothing; otherwise the result is the cached one after an earlier attempt, else the asset's outcome, and the record is marked attempted with that result |
| SoundSystem.Sound.PrecacheSound | source/snd_fmod.c:800-808 | nothing with s_nosound; a fatal error changes no name and no record; otherwise the name is registered (or was), the records are the old ones (plus an unloaded one for a new name), and with s_precache the name's record alone becomes the attempted load of its asset, as ExpectedLoad says |
| SoundSystem.Sound.Preload | source/snd_fmod.c:805-806 | the record at idx becomes the attempted load ExpectedLoad gives for its asset; every other record and every name is unchanged |
| SoundSystem.Sound.PrecacheAmbients | source/snd_fmod.c:1090-1091 | the first ambient is bound to the water sound and the second to the wind sound, or neither with s_nosound; the others are untouched |
| SoundSystem.Sound.PrecacheAmbient | source/snd_fmod.c:1090 | one ambient is bound to the sound of its name, or to none with s_nosound; a fatal error binds nothing |
| SoundSystem.Sound.SetAmbientSfx | source/snd_fmod.c:1090-1091 | ambient i is bound to the given registered sound or to none, the others keep theirs, and the invariant holds |
| SoundSystem.Sound.FindChannel | source/snd_fmod.c:830-847 | returns the first live match (FirstLive); every matching slot scanned before it whose voice has finished is freed, and nothing else changes |
| SoundSystem.Sound.AllocChannel | source/snd_fmod.c:856-878 | returns the slot ChooseSlot picks; a finished slot taken is zeroed; a virtual one is stopped and zeroed; nothing else changes |
| SoundSystem.Sound.StopSound | source/snd_fmod.c:1334-1347 | exactly the slots tracked for (entnum, entchannel) are freed and their voices stopped; every other slot and voice is untouched |
| SoundSystem.Sound.StopMatching | source/snd_fmod.c:1336-1346 | the loop frees and stops exactly the matching slots |
| SoundSystem.Sound.StopAllTrackedChannels | source/snd_fmod.c:885-894 | every tracked voice is stopped and every slot zeroed |
| SoundSystem.Sound.StopTracked | source/snd_fmod.c:886-892 | each tracked voice is stopped and each spatializer released |
| SoundSystem.Sound.ClearSlots | source/snd_fmod.c:893 | every slot is zeroed |
| SoundSystem.Sound.StopAmbientChannels | source/snd_fmod.c:901-910 | every ambient loop is stopped and forgotten and every ambient volume is 0 |
| SoundSystem.Sound.StopAmbientLoops | source/snd_fmod.c:903-909 | the loop of StopAmbientChannels has that effect |
| SoundSystem.Sound.StopAllSounds | source/snd_fmod.c:1354-1360 | every tracked voice and every ambient loop is stopped; the pool is empty |
| SoundSystem.Sound.AttachSpatializer | source/snd_fmod.c:419-479 | the voice is made 2D and, when the mixer creates a DSP, the slot takes it with the block of a source at the origin at rest |
| SoundSystem.Sound.StopEntityChannel | source/snd_fmod.c:1179-1188 | the FindChannel loop ends with exactly the effect of S_StopSound for (entnum, entchannel) |
| SoundSystem.Sound.ReleaseFound | source/snd_fmod.c:1184-1186 | the found voice is stopped and its slot freed |
| SoundSystem.Sound.TrackNew | source/snd_fmod.c:1195-1212 | AllocChannel and the filling in of the slot it returns |
| SoundSystem.Sound.ConfigureStarted | source/snd_fmod.c:1213-1236 | the mode branch and the volume of S_StartSound, as ConfigureEffect describes |
| SoundSystem.Sound.StopForStart | source/snd_fmod.c:1179-1188 | the stop loop, only for a non-zero entchannel |
| SoundSystem.Sound.StartPlayed | source/snd_fmod.c:1195-1236 | the new voice joins the mixer, takes a slot if one is handed out, and is configured |
| SoundSystem.Sound.StartSound | source/snd_fmod.c:1165-1239 | nothing for a null sound or with s_nosound; only the load attempt when the sound does not load; otherwise the pool and mixer change as StartPool says, whose properties are the Starting lemmas |
| SoundSystem.Sound.StartLoaded | source/snd_fmod.c:1179-1239 | the part after the sound loaded, and the invariant is kept |
| SoundSystem.Sound.StartInPool | source/snd_fmod.c:1179-1239 | the stop loop, then the new voice when PlaySound succeeds |
| SoundSystem.Sound.StaticSound | source/snd_fmod.c:1246-1327 | nothing for a null sound; only the load attempt when it does not load or PlaySound fails (even with s_nosound); otherwise the change StaticStarted describes |
| SoundSystem.Sound.StaticLoaded | source/snd_fmod.c:1264-1326 | the part after PlaySound succeeded, and the invariant is kept |
| SoundSystem.Sound.StaticSpatialize | source/snd_fmod.c:1264-1293 | the Atmoky branch of S_StaticSound |
| SoundSystem.Sound.StaticPlain | source/snd_fmod.c:1294-1326 | the other branch: the 3D loop is set up, then tracked |
| SoundSystem.Sound.MoveSounds | source/snd_fmod.c:649-699 | the loop has exactly the effect MoveSweep describes |
| SoundSystem.Sound.UpdateMovingSounds | source/snd_fmod.c:646-700 | S_UpdateMovingSounds has the effect of MoveSweep and keeps the invariant |
| SoundSystem.Sound.SpatializeSlots | source/snd_fmod.c:587-643 | the loop has exactly the effect SpatialSweep describes |
| SoundSystem.Sound.UpdateSpatializers | source/snd_fmod.c:582-644 | nothing without Atmoky, otherwise the effect of SpatialSweep; the invariant is kept |
| SoundSystem.Sound.SilenceAmbients | source/snd_fmod.c:924-928 | every held ambient loop is set to volume 0 and every ambient volume is 0 |
| SoundSystem.Sound.FadeAmbients | source/snd_fmod.c:931-971 | the fading loop has exactly the effect AmbientSweep describes |
| SoundSystem.Sound.FadeAmbient | source/snd_fmod.c:932-970 | one iteration has the effect AmbientStep describes |
| SoundSystem.Sound.FadeVolume | source/snd_fmod.c:934-945 | ambient i's volume takes its FadeStep and no other volume changes |
| SoundSystem.Sound.RestartAmbient | source/snd_fmod.c:946-970 | the sound's record is marked attempted; no sound: nothing else; PlaySound fails: the handle is forgotten; otherwise the new 2D loop is held and set to vol / 255 |
| SoundSystem.Sound.UpdateAmbients | source/snd_fmod.c:918-971 | the three branches of S_UpdateAmbientSounds, as AmbientUpdate describes |
| SoundSystem.Sound.UpdateAmbientSounds | source/snd_fmod.c:912-972 | the effect of AmbientUpdate, and the invariant is kept |
| SoundSystem.Sound.Update | source/snd_fmod.c:1367-1441 | nothing while blocked; otherwise the ambients, then the moving sounds on the mixer the ambients left, then with Atmoky the spatializers on what that left |
| SoundSystem.Sound.MixerAdvances | source/snd_fmod.c:1439 | after the mixer moves its voices on as Advances allows, the layer's invariant still holds and the mixer is the new one |
| SoundSystem.Sound.BlockSound | source/snd_fmod.c:1504-1515 | the counter grows by one and the master group is muted (from the first block on) |
| SoundSystem.Sound.UnblockSound | source/snd_fmod.c:1522-1535 | unblocking at 0 changes nothing; otherwise the counter drops by one and the group is muted exactly while it stays positive |

Two points where a plain description of the layer and its code differ; the
model follows the code:

- A teleport does not leave `have_prev_origin` false. Line 680 clears the flag
  and line 694 sets it back to true on every update. `Frame.Advanced` and
  `Motion.StillAfterUpdate` state the net effect: the next frame starts from
  `prev_origin == origin`, so it shows no velocity spike either.
- When the pool is full, a new sound is not refused. `S_StartSound` calls
  `FMOD_System_PlaySound` before `AllocChannel`, so the sound plays untracked
  (`Starting.StartSoundUntracked`).

## Left out

- FMOD itself is the abstract map `Mixer.Status`. Mixing, pausing (`SetPaused`
  is taken as always succeeding), `SetLoopCount`, the distance model and the
  rolloff flags are not modelled; looping is a flag.
- The FMOD error macros print and, for `FMOD_ERRCHECK`, return. Only the two
  returns that change control flow are modelled, at lines 667 and 698 of
  `S_UpdateMovingSounds`. Every `FMOD_ERRLOG` is taken as having no effect on
  the voice.
- The `!fmod_initialized` early returns are left out: the model describes an
  initialised layer.
- `S_Init` beyond the registry, the ambient bindings and the final
  `S_StopAllSounds` is left out, as are `S_Shutdown` and `S_Restart`. This
  covers system creation, output and driver selection, and printing.
- `Atmoky_LoadPlugin`, the plugin's parameter settings other than the 3D
  block, and the externalizer (attach, detach, update) are left out.
  `atmokyAvailable` is a constructor argument, and it means the spatializer
  plugin was found, as on lines 401-402.
- Releasing a DSP does not remove its key from `dspParams`. The map records
  blocks written, not live DSPs. The handle discipline only requires every
  held spatializer to be a key. A DSP the mixer hands out may be one released
  earlier; the operations only ask that no slot holds it when they begin. A
  DSP released by the same operation's stop loop or steal is not taken to
  come back in that operation.
- `S_Update`'s listener set-up (lines 1376-1398) is left out, apart from the
  cross product that `Vectors.RightCompletesBasis` covers. So are the calls
  after it: `FMOD_System_Set3DListenerAttributes`, the master volume, the
  Doppler settings and the externalizer update. They are I/O towards the
  mixer. `FMOD_System_Update` is the separate method
  `SoundSystem.Sound.MixerAdvances`, whose new mixer state is a parameter:
  through it voices end, go virtual or refuse GetMode and Set3DAttributes, so
  the steal pass of `AllocChannel`, the reaping sweeps and the aborts at lines
  667 and 698 are reachable from a freshly constructed layer.
- `NormalizeInPlace` and `OrthonormalizeFmodVectors` are left out. They are
  floating-point normalisation with a threshold, which has no exact meaning
  over reals. The listener is an input; where orthonormality is needed it is a
  precondition.
- File loading, `CM_PointInLeaf`, `CM_LeafAmbientLevel`, `cl_entities`,
  `cls.state` and the cvars are inputs (`assets`, `World`, `AmbientEnv`).
- The console commands, `S_LocalSound`, `S_ExtraUpdate` and the empty
  legacy-DMA stubs are left out.
- `NUM_AMBIENTS`, `AMBIENT_WATER` and `AMBIENT_SKY` come from `sound.h`, which
  is not part of this model. They are taken as 4, 0 and 1.
- SoundSystem.Sound.GrowSfxArrays: does not model the `malloc` failure on
  lines 232-239, because allocation in the model cannot fail. The
  `Sys_Error` at `INT_MAX` is a `false` result that `FindName` reports as
  the fatal `TableOverflow`. The fix-up of pointers (lines 246-257) is the
  identity, because references are indices.
- The master channel group lookup in `S_BlockSound` and `S_UnblockSound` is
  taken as succeeding, so `masterMuted` follows the counter's edges.
- `MAX_FMOD_CHANNELS` (4095) is the size `n` of the pool, a constructor
  parameter.
- Single-precision rounding is not modelled: all arithmetic is over `real`.
  `sqrtf` is the parameter `sqrt`.
- Sys_Error is modelled as the `Fatal` error outcome with the registry
  unchanged. Ending the process is not modelled.
- SoundSystem.Sound.FindName: the `MAX_QPATH` test of line 717 counts the
  characters of a `seq<char>`, not the bytes `strlen` counts, so a name of
  multibyte characters becomes fatal at a greater length in the model than in
  the source.
- `snd_blocked`, `num_sfx` and `max_sfx` are C `int`s (lines 130-131, 153,
  1507). The model's counters are unbounded, so the overflow of `snd_blocked`
  after `INT_MAX` nested blocks is not modelled; the `INT_MAX` guard of
  `GrowSfxArrays` on `max_sfx` is.
