/** The uniform and texture-channel tables that LLGLSLShader::mapUniforms and
    mapUniform fill, as values: what one active uniform does to them, what a
    whole pass over the active uniforms does, and the invariants they keep. */
module UniformTables {
  import opened Wrappers
  import opened GlslNames

  /** One active uniform as the driver reports it: glGetActiveUniformARB's
      name, array size and type, and glGetUniformLocationARB's location. */
  datatype ActiveUniform = ActiveUniform(name: string, size: int, glType: int, location: int)

  // OpenGL type enumerants that mapUniform tests.
  const GlDouble: int := 0x140A
  const GlFloatVec2: int := 0x8B50
  const GlFloatVec3: int := 0x8B51
  const GlFloatVec4: int := 0x8B52
  const GlIntVec2: int := 0x8B53
  const GlIntVec3: int := 0x8B54
  const GlIntVec4: int := 0x8B55
  const GlBoolVec2: int := 0x8B57
  const GlBoolVec3: int := 0x8B58
  const GlBoolVec4: int := 0x8B59
  const GlFloatMat2: int := 0x8B5A
  const GlFloatMat3: int := 0x8B5B
  const GlFloatMat4: int := 0x8B5C
  const GlSampler1D: int := 0x8B5D
  const GlSampler2DRectShadow: int := 0x8B64
  const GlFloatMat2x3: int := 0x8B65
  const GlFloatMat2x4: int := 0x8B66
  const GlFloatMat3x2: int := 0x8B67
  const GlFloatMat3x4: int := 0x8B68
  const GlFloatMat4x2: int := 0x8B69
  const GlFloatMat4x3: int := 0x8B6A
  const GlUnsignedIntVec2: int := 0x8DC6
  const GlUnsignedIntVec3: int := 0x8DC7
  const GlUnsignedIntVec4: int := 0x8DC8
  const GlDoubleMat2: int := 0x8F46
  const GlDoubleMat3: int := 0x8F47
  const GlDoubleMat4: int := 0x8F48
  const GlDoubleMat2x3: int := 0x8F49
  const GlDoubleMat2x4: int := 0x8F4A
  const GlDoubleMat3x2: int := 0x8F4B
  const GlDoubleMat3x4: int := 0x8F4C
  const GlDoubleMat4x2: int := 0x8F4D
  const GlDoubleMat4x3: int := 0x8F4E
  const GlDoubleVec2: int := 0x8FFC
  const GlDoubleVec3: int := 0x8FFD
  const GlDoubleVec4: int := 0x8FFE

  /** The factor by which mapUniform scales a uniform's array size before
      adding it to mTotalUniformSize; types not listed count once. */
  const SizeMultipliers: map<int, nat> := map[
    GlFloatVec2 := 2, GlFloatVec3 := 3, GlFloatVec4 := 4,
    GlDouble := 2, GlDoubleVec2 := 2, GlDoubleVec3 := 6, GlDoubleVec4 := 8,
    GlIntVec2 := 2, GlIntVec3 := 3, GlIntVec4 := 4,
    GlUnsignedIntVec2 := 2, GlUnsignedIntVec3 := 3, GlUnsignedIntVec4 := 4,
    GlBoolVec2 := 2, GlBoolVec3 := 3, GlBoolVec4 := 4,
    GlFloatMat2 := 4, GlFloatMat3 := 9, GlFloatMat4 := 16,
    GlFloatMat2x3 := 6, GlFloatMat2x4 := 8, GlFloatMat3x2 := 6,
    GlFloatMat3x4 := 12, GlFloatMat4x2 := 8, GlFloatMat4x3 := 12,
    GlDoubleMat2 := 8, GlDoubleMat3 := 18, GlDoubleMat4 := 32,
    GlDoubleMat2x3 := 12, GlDoubleMat2x4 := 16, GlDoubleMat3x2 := 12,
    GlDoubleMat3x4 := 24, GlDoubleMat4x2 := 16, GlDoubleMat4x3 := 24]

  /** Sampler types, the ones that get a texture channel. */
  predicate IsSampler(glType: int)
  {
    GlSampler1D <= glType <= GlSampler2DRectShadow
  }

  function SizeMultiplier(glType: int): (m: nat)
    ensures 1 <= m <= 32
    ensures IsSampler(glType) ==> m == 1
  {
    if glType in SizeMultipliers then SizeMultipliers[glType] else 1
  }

  /** What one active uniform adds to mTotalUniformSize: nothing unless the
      driver reported a positive size. */
  function SizeContribution(u: ActiveUniform): (n: int)
    ensures u.size <= 0 ==> n == 0
    ensures u.size > 0 ==> u.size <= n <= 32 * u.size
    ensures IsSampler(u.glType) && u.size > 0 ==> n == u.size
  {
    if u.size > 0 then u.size * SizeMultiplier(u.glType) else 0
  }

  /** The part of the shader's state that mapUniforms owns: mUniform, mTexture,
      mActiveTextureChannels, mTotalUniformSize and mUniformMap. */
  datatype Tables = Tables(uniform: seq<int>, texture: seq<int>, channels: int,
                           totalSize: int, names: map<string, int>)

  /** The state mapUniforms starts from: counters zero, map empty, and both
      tables `slots` long with every entry -1. */
  function Reset(slots: nat): (t: Tables)
    ensures |t.uniform| == slots && |t.texture| == slots
    ensures forall k :: 0 <= k < slots ==> t.uniform[k] == -1 && t.texture[k] == -1
    ensures t.channels == 0 && t.totalSize == 0 && t.names == map[]
  {
    Tables(seq(slots, _ => -1), seq(slots, _ => -1), 0, 0, map[])
  }

  /** True when the slot for `names[i]`, at `offset + i`, is free and `names[i]` is `name`. */
  predicate FreeMatch(names: seq<string>, table: seq<int>, offset: nat, name: string, i: int)
    requires offset + |names| <= |table|
  {
    0 <= i < |names| && table[offset + i] == -1 && names[i] == name
  }

  /** The first index at or after `from` whose name is `name` and whose slot is still free. */
  function FirstFree(names: seq<string>, table: seq<int>, offset: nat, name: string, from: nat): (r: Option<nat>)
    requires offset + |names| <= |table|
    ensures r.Some? ==> from <= r.value && FreeMatch(names, table, offset, name, r.value)
    ensures forall i :: from <= i && (r.None? || i < r.value) ==> !FreeMatch(names, table, offset, name, i)
    decreases |names| - from
  {
    if from >= |names| then None
    else if table[offset + from] == -1 && names[from] == name then Some(from)
    else FirstFree(names, table, offset, name, from + 1)
  }

  /** The name that owns slot `k`: reserved names first, then custom names. */
  function SlotName(reserved: seq<string>, custom: seq<string>, k: nat): string
    requires k < |reserved| + |custom|
  {
    if k < |reserved| then reserved[k] else custom[k - |reserved|]
  }

  /** The slot mapUniform fills for `name`: the first free reserved slot of
      that name, else the first free custom slot of that name, else none. */
  function TargetSlot(table: seq<int>, reserved: seq<string>, custom: seq<string>, name: string): (r: Option<nat>)
    requires |table| == |reserved| + |custom|
    ensures r.Some? ==> r.value < |table| && table[r.value] == -1 && SlotName(reserved, custom, r.value) == name
    ensures r.Some? && r.value < |reserved| ==>
              forall i :: 0 <= i < r.value ==> !FreeMatch(reserved, table, 0, name, i)
    ensures r.Some? && r.value >= |reserved| ==>
              (forall i :: !FreeMatch(reserved, table, 0, name, i))
              && forall i :: 0 <= i < r.value - |reserved| ==> !FreeMatch(custom, table, |reserved|, name, i)
    ensures r.None? ==>
              (forall i :: !FreeMatch(reserved, table, 0, name, i))
              && forall i :: !FreeMatch(custom, table, |reserved|, name, i)
  {
    match FirstFree(reserved, table, 0, name, 0)
    case Some(i) => Some(i)
    case None =>
      match FirstFree(custom, table, |reserved|, name, 0)
      case Some(i) => Some(|reserved| + i)
      case None => None
  }

  /** Slot `k` takes `location`, and a sampler also takes the next channel. */
  function Fill(t: Tables, k: nat, location: int, glType: int): (r: Tables)
    requires |t.uniform| == |t.texture| && k < |t.uniform|
  {
    if IsSampler(glType) then
      t.(uniform := t.uniform[k := location], texture := t.texture[k := t.channels],
         channels := t.channels + 1)
    else
      t.(uniform := t.uniform[k := location], texture := t.texture[k := -1])
  }

  /** True when slot `k` of `r` differs from slot `k` of `t`. */
  predicate Changed(t: Tables, r: Tables, k: int)
    requires |t.uniform| == |r.uniform| && |t.texture| == |r.texture|
  {
    0 <= k < |t.uniform| && k < |t.texture| && (r.uniform[k] != t.uniform[k] || r.texture[k] != t.texture[k])
  }

  /** mapUniform for one active uniform (non-Darwin build). */
  function MapOne(t: Tables, u: ActiveUniform, reserved: seq<string>, custom: seq<string>): (r: Tables)
    requires |t.uniform| == |reserved| + |custom| && |t.texture| == |t.uniform|
    ensures |r.uniform| == |t.uniform| && |r.texture| == |t.texture|
    ensures r.totalSize == t.totalSize + SizeContribution(u)
  {
    var sized := t.(totalSize := t.totalSize + SizeContribution(u));
    if u.location == -1 then sized
    else
      var name := ChopArraySuffix(u.name);
      var named := sized.(names := sized.names[name := u.location]);
      match TargetSlot(t.uniform, reserved, custom, name)
      case None => named
      case Some(k) => Fill(named, k, u.location, u.glType)
  }

  /** mapUniform with a location, as its two searches see it: the first
      free reserved slot of the name, else the first free custom slot, fills;
      `named` is the state once the size and the map are updated. */
  lemma MapOneSlot(t: Tables, u: ActiveUniform, reserved: seq<string>, custom: seq<string>, named: Tables)
    requires |t.uniform| == |reserved| + |custom| && |t.texture| == |t.uniform|
    requires u.location != -1
    requires named == t.(totalSize := t.totalSize + SizeContribution(u),
                         names := t.names[ChopArraySuffix(u.name) := u.location])
    ensures MapOne(t, u, reserved, custom) ==
              match FirstFree(reserved, t.uniform, 0, ChopArraySuffix(u.name), 0)
              case Some(i) => Fill(named, i, u.location, u.glType)
              case None =>
                match FirstFree(custom, t.uniform, |reserved|, ChopArraySuffix(u.name), 0)
                case Some(i) => Fill(named, |reserved| + i, u.location, u.glType)
                case None => named
  {
  }

  /** What one call of mapUniform may change: the size total always grows by
      the uniform's contribution; with no location nothing else changes;
      otherwise the map learns the chopped name, at most one slot changes, a
      slot already set is never overwritten, and a channel is taken exactly
      when a sampler fills a slot. */
  lemma MapOneChanges(t: Tables, u: ActiveUniform, reserved: seq<string>, custom: seq<string>)
    requires |t.uniform| == |reserved| + |custom| && |t.texture| == |t.uniform|
    ensures var r := MapOne(t, u, reserved, custom);
            && r.totalSize == t.totalSize + SizeContribution(u)
            && (u.location == -1 ==>
                  r.uniform == t.uniform && r.texture == t.texture && r.channels == t.channels && r.names == t.names)
            && (u.location != -1 ==> r.names == t.names[ChopArraySuffix(u.name) := u.location])
            && (forall k :: 0 <= k < |t.uniform| && t.uniform[k] != -1 ==>
                  r.uniform[k] == t.uniform[k] && r.texture[k] == t.texture[k])
            && (forall j, k :: Changed(t, r, j) && Changed(t, r, k) ==> j == k)
            && (r.channels == t.channels + 1 <==>
                  u.location != -1 && IsSampler(u.glType)
                  && TargetSlot(t.uniform, reserved, custom, ChopArraySuffix(u.name)).Some?)
            && (r.channels == t.channels || r.channels == t.channels + 1)
  {
  }

  /** mapUniforms' loop: mapUniform for each active uniform in index order. */
  function MapAll(t: Tables, us: seq<ActiveUniform>, reserved: seq<string>, custom: seq<string>): (r: Tables)
    requires |t.uniform| == |reserved| + |custom| && |t.texture| == |t.uniform|
    ensures |r.uniform| == |t.uniform| && |r.texture| == |t.texture|
    decreases |us|
  {
    if us == [] then t
    else MapOne(MapAll(t, us[..|us| - 1], reserved, custom), us[|us| - 1], reserved, custom)
  }

  /** Mapping one more active uniform is one more MapOne step. */
  lemma MapAllStep(t: Tables, us: seq<ActiveUniform>, i: nat, reserved: seq<string>, custom: seq<string>)
    requires |t.uniform| == |reserved| + |custom| && |t.texture| == |t.uniform|
    requires i < |us|
    ensures MapAll(t, us[..i + 1], reserved, custom) == MapOne(MapAll(t, us[..i], reserved, custom), us[i], reserved, custom)
  {
    assert us[..i + 1][..i] == us[..i];
  }

  /** The slot a filled uniform went to is the one TargetSlot names, it now
      holds the uniform's location, and its channel is the old counter for a
      sampler and -1 otherwise. */
  lemma MapOneFillsTargetSlot(t: Tables, u: ActiveUniform, reserved: seq<string>, custom: seq<string>, k: nat)
    requires |t.uniform| == |reserved| + |custom| && |t.texture| == |t.uniform|
    requires u.location != -1 && TargetSlot(t.uniform, reserved, custom, ChopArraySuffix(u.name)) == Some(k)
    ensures var r := MapOne(t, u, reserved, custom);
            Changed(t, r, k) && r.uniform[k] == u.location && t.uniform[k] == -1
            && r.texture[k] == (if IsSampler(u.glType) then t.channels else -1)
            && SlotName(reserved, custom, k) == ChopArraySuffix(u.name)
  {
  }

  /** A uniform with no location, or whose name has no free slot, fills nothing. */
  lemma MapOneWithoutSlotFillsNothing(t: Tables, u: ActiveUniform, reserved: seq<string>, custom: seq<string>)
    requires |t.uniform| == |reserved| + |custom| && |t.texture| == |t.uniform|
    requires u.location == -1 || TargetSlot(t.uniform, reserved, custom, ChopArraySuffix(u.name)).None?
    ensures var r := MapOne(t, u, reserved, custom);
            r.uniform == t.uniform && r.texture == t.texture && r.channels == t.channels
  {
  }

  /** The sum of what each uniform adds to mTotalUniformSize. */
  function SumSizes(us: seq<ActiveUniform>): (n: int)
    ensures n >= 0
    decreases |us|
  {
    if us == [] then 0 else SumSizes(us[..|us| - 1]) + SizeContribution(us[|us| - 1])
  }

  /** After a pass, mTotalUniformSize has grown by exactly the sum of the
      uniforms' contributions. */
  lemma {:induction false} MapAllTotalSize(t: Tables, us: seq<ActiveUniform>, reserved: seq<string>, custom: seq<string>)
    requires |t.uniform| == |reserved| + |custom| && |t.texture| == |t.uniform|
    ensures MapAll(t, us, reserved, custom).totalSize == t.totalSize + SumSizes(us)
    decreases |us|
  {
    if us != [] {
      MapAllTotalSize(t, us[..|us| - 1], reserved, custom);
    }
  }

  /** Some slot of `texture` holds channel `c`. */
  ghost predicate HasChannel(texture: seq<int>, c: int)
  {
    exists k :: 0 <= k < |texture| && texture[k] == c
  }

  /** The channel invariant: an unset uniform slot has no channel; the
      channels in use are exactly 0 .. channels-1, each in one slot only. */
  ghost predicate Dense(t: Tables)
  {
    && |t.uniform| == |t.texture|
    && 0 <= t.channels
    && (forall k :: 0 <= k < |t.uniform| && t.uniform[k] == -1 ==> t.texture[k] == -1)
    && (forall k :: 0 <= k < |t.texture| ==> t.texture[k] == -1 || 0 <= t.texture[k] < t.channels)
    && (forall i, j :: 0 <= i < j < |t.texture| && t.texture[i] != -1 ==> t.texture[i] != t.texture[j])
    && (forall c :: 0 <= c < t.channels ==> HasChannel(t.texture, c))
  }

  lemma ResetDense(slots: nat)
    ensures Dense(Reset(slots))
  {
  }

  /** Filling a free slot with a real location keeps the channel invariant. */
  lemma FillKeepsDense(t: Tables, k: nat, location: int, glType: int)
    requires Dense(t) && k < |t.uniform| && t.uniform[k] == -1 && location != -1
    ensures Dense(Fill(t, k, location, glType))
  {
    var r := Fill(t, k, location, glType);
    assert t.texture[k] == -1;
    forall c | 0 <= c < r.channels ensures HasChannel(r.texture, c) {
      if c < t.channels {
        assert HasChannel(t.texture, c);
        var j :| 0 <= j < |t.texture| && t.texture[j] == c;
        assert j != k && r.texture[j] == c;
      } else {
        assert r.texture[k] == c;
      }
    }
  }

  lemma MapOneKeepsDense(t: Tables, u: ActiveUniform, reserved: seq<string>, custom: seq<string>)
    requires |t.uniform| == |reserved| + |custom| && Dense(t)
    ensures Dense(MapOne(t, u, reserved, custom))
  {
    if u.location != -1 {
      var name := ChopArraySuffix(u.name);
      var named := t.(totalSize := t.totalSize + SizeContribution(u), names := t.names[name := u.location]);
      match TargetSlot(t.uniform, reserved, custom, name)
      case None =>
      case Some(k) => FillKeepsDense(named, k, u.location, u.glType);
    }
  }

  /** After mapUniforms, the channels in mTexture are exactly 0 ..
      mActiveTextureChannels-1, each held by one slot. */
  lemma {:induction false} MapAllDense(slots: nat, us: seq<ActiveUniform>, reserved: seq<string>, custom: seq<string>)
    requires slots == |reserved| + |custom|
    ensures Dense(MapAll(Reset(slots), us, reserved, custom))
    decreases |us|
  {
    if us == [] {
      ResetDense(slots);
    } else {
      MapAllDense(slots, us[..|us| - 1], reserved, custom);
      MapOneKeepsDense(MapAll(Reset(slots), us[..|us| - 1], reserved, custom), us[|us| - 1], reserved, custom);
    }
  }
}
