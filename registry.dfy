/** The value side of the sound-name registry: the per-name FMOD record, the
    outcome of reading and decoding an asset, and the growth constants. */
module Registry {
  import opened Options
  import opened Mixer

  /** MAX_QPATH: a sound name must be strictly shorter than this. */
  const MaxQPath: nat := 64
  /** SFX_INITIAL and SFX_GROW: the registry's first capacity and its step. */
  const SfxInitial: nat := 256
  const SfxGrow: nat := 256
  /** INT_MAX of a 32-bit int, the bound GrowSfxArrays refuses to reach. */
  const IntMax: int := 2147483647

  /** fmod_sfx_t: loaded means a load was attempted; the sound may still be
      absent when that attempt failed. */
  datatype FmodSfx = FmodSfx(sound: Option<SoundObj>, loaded: bool)

  const Unloaded: FmodSfx := FmodSfx(None, false)

  /** What reading "sound/<name>" and handing it to FMOD_System_CreateSound
      gives: no file, a file FMOD refuses, or a sound object. */
  datatype AssetLoad = Missing | Undecodable | Decoded(sound: SoundObj)

  /** The path FMOD_LoadSfx reads a sound from. */
  function SoundPath(name: string): (p: string)
    ensures |p| == |name| + 6 && p[..6] == "sound/" && p[6..] == name
  {
    "sound/" + name
  }

  /** The sound FMOD_System_CreateSound gives for an asset, if any. */
  function LoadOutcome(a: AssetLoad): Option<SoundObj> {
    if a.Decoded? then Some(a.sound) else None
  }

  /** What FMOD_LoadSfx returns for a record: the cached result once a load was
      attempted, otherwise the asset's outcome. */
  function ExpectedLoad(entry: FmodSfx, asset: AssetLoad): Option<SoundObj> {
    if entry.loaded then entry.sound else LoadOutcome(asset)
  }

  /** A load is attempted at most once per name: after the first call, the
      record answers every later call with the first call's result, whatever
      the asset would give now. */
  lemma LoadIsCached(entry: FmodSfx, first: AssetLoad, later: AssetLoad)
    ensures var stored := FmodSfx(ExpectedLoad(entry, first), true);
            stored.loaded && ExpectedLoad(stored, later) == ExpectedLoad(entry, first)
    ensures !entry.loaded ==> (ExpectedLoad(entry, first).Some? <==> first.Decoded?)
    ensures !entry.loaded && first.Decoded? ==> ExpectedLoad(entry, first) == Some(first.sound)
    ensures !entry.loaded && first.Missing? ==> ExpectedLoad(FmodSfx(None, true), later).None?
  {
  }

  /** No name is registered twice. */
  predicate DistinctNames(names: seq<string>) {
    forall i, j :: 0 <= i < j < |names| ==> names[i] != names[j]
  }

  /** What the registry keeps of its names: none is registered twice, and each
      is shorter than MAX_QPATH. */
  predicate NamesOk(names: seq<string>) {
    DistinctNames(names) && forall i :: 0 <= i < |names| ==> |names[i]| < MaxQPath
  }

  /** Registering a new name short enough keeps the names as the registry
      keeps them. */
  lemma AppendKeepsNamesOk(names: seq<string>, name: string)
    requires NamesOk(names) && name !in names && |name| < MaxQPath
    ensures NamesOk(names + [name])
  {
    AppendKeepsDistinct(names, name);
  }

  /** The names stay distinct when a name that is not yet there is appended;
      the half of AppendKeepsNamesOk about distinctness. */
  lemma AppendKeepsDistinct(names: seq<string>, name: string)
    requires DistinctNames(names) && name !in names
    ensures DistinctNames(names + [name])
  {
    forall i, j | 0 <= i < j < |names| + 1
      ensures (names + [name])[i] != (names + [name])[j]
    {
      if j == |names| {
        assert names[i] in names;
      }
    }
  }
}
