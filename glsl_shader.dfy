/** LLGLSLShader's bookkeeping: the uniform, texture-channel and attribute
    tables its methods fill from the driver's answers, the counters beside
    them, the define map, and createShader's level fallback. The driver and
    the shader manager appear only through their answers, as parameters. */
module GlslShader {
  import opened Wrappers
  import opened GlslNames
  import opened UniformTables
  import opened ChannelRemap
  import opened AttributeTables
  import opened LevelFallback

  /** The shader manager's reserved attribute and uniform names, which every
      shader's tables start with. */
  datatype ShaderManager = ShaderManager(reservedAttribs: seq<string>, reservedUniforms: seq<string>)

  /** One source file of a shader and the stage it is compiled for. */
  datatype ShaderFile = ShaderFile(path: string, stage: int)

  /** Every try carries one answer per shader file and per attribute. */
  predicate Fits(a: Attempt, mgr: ShaderManager, attributes: seq<string>, fileCount: nat)
  {
    && |a.fileHandles| == fileCount
    && |a.reservedAttribLocs| == |mgr.reservedAttribs|
    && |a.customAttribLocs| == |attributes|
  }

  /** The indexed-channel count after createShader's legacy clamp to at most 1. */
  function ClampedChannels(n: int, legacyBatching: bool): (r: int)
    ensures r <= n
    ensures legacyBatching ==> r <= 1 && (r == n || r == 1) && (n <= 1 ==> r == n)
    ensures !legacyBatching ==> r == n
  {
    if legacyBatching && n > 1 then 1 else n
  }

  class Shader {
    const shaderClass: int
    var programObject: nat
    var shaderLevel: int
    var attributeMask: bv32
    var totalUniformSize: int
    var activeTextureChannels: int
    var uniform: array<int>
    var texture: array<int>
    var attribute: array<int>
    var uniformMap: map<string, int>
    var defines: map<string, string>
    var shaderFiles: seq<ShaderFile>
    var indexedTextureChannels: int

    /** The three tables are separate arrays, and mUniform and mTexture are
        indexed by the same slots. */
    ghost predicate Valid()
      reads this
    {
      && uniform != texture && uniform != attribute && texture != attribute
      && uniform.Length == texture.Length
    }

    /** The part of the state mapUniforms owns, as a value. */
    ghost function UniformState(): Tables
      reads this, uniform, texture
    {
      Tables(uniform[..], texture[..], activeTextureChannels, totalUniformSize, uniformMap)
    }

    constructor (shaderClass: int)
      ensures Valid() && this.shaderClass == shaderClass
      ensures programObject == 0 && shaderLevel == 0 && attributeMask == 0
      ensures totalUniformSize == 0 && activeTextureChannels == 0 && indexedTextureChannels == 0
      ensures uniform.Length == 0 && texture.Length == 0 && attribute.Length == 0
      ensures uniformMap == map[] && defines == map[] && shaderFiles == []
    {
      this.shaderClass := shaderClass;
      programObject, shaderLevel, attributeMask := 0, 0, 0;
      totalUniformSize, activeTextureChannels, indexedTextureChannels := 0, 0, 0;
      uniform := new int[0];
      texture := new int[0];
      attribute := new int[0];
      uniformMap, defines, shaderFiles := map[], map[], [];
    }

    /** unload: empties the tables, the file list and the defines and drops
        the program; the uniform map and the counters stay as they were. */
    method Unload()
      modifies this`attribute, this`texture, this`uniform, this`shaderFiles, this`defines, this`programObject
      ensures Valid()
      ensures attribute.Length == 0 && texture.Length == 0 && uniform.Length == 0
      ensures shaderFiles == [] && defines == map[] && programObject == 0
    {
      attribute := new int[0];
      texture := new int[0];
      uniform := new int[0];
      shaderFiles := [];
      defines := map[];
      programObject := 0;
    }

    /** A sampler takes the next texture channel; any other type gets none. */
    method MapUniformTextureChannel(glType: int) returns (channel: int)
      modifies this`activeTextureChannels
      ensures IsSampler(glType) ==>
                channel == old(activeTextureChannels) && activeTextureChannels == old(activeTextureChannels) + 1
      ensures !IsSampler(glType) ==> channel == -1 && activeTextureChannels == old(activeTextureChannels)
    {
      if IsSampler(glType) {
        channel := activeTextureChannels;
        activeTextureChannels := activeTextureChannels + 1;
        return;
      }
      channel := -1;
    }

    /** One of mapUniform's two searches: the first slot `offset + i` whose
        name `names[i]` is `name` and which is still -1 takes `location`, and
        its channel; the search then stops. */
    method FillFirstFree(names: seq<string>, offset: nat, name: string, location: int, glType: int)
      returns (filled: bool)
      requires Valid() && offset + |names| <= uniform.Length
      modifies this`activeTextureChannels, uniform, texture
      ensures var t := old(UniformState());
              match FirstFree(names, t.uniform, offset, name, 0)
              case None => !filled && UniformState() == t
              case Some(i) => filled && UniformState() == Fill(t, offset + i, location, glType)
    {
      ghost var t := UniformState();
      var i := 0;
      while i < |names|
        invariant 0 <= i <= |names|
        invariant uniform[..] == t.uniform && texture[..] == t.texture && activeTextureChannels == t.channels
        invariant FirstFree(names, t.uniform, offset, name, i) == FirstFree(names, t.uniform, offset, name, 0)
      {
        if uniform[offset + i] == -1 && names[i] == name {
          uniform[offset + i] := location;
          var channel := MapUniformTextureChannel(glType);
          texture[offset + i] := channel;
          return true;
        }
        i := i + 1;
      }
      return false;
    }

    /** mapUniform for active uniform `index` (-1 maps nothing). */
    method MapUniform(index: int, active: seq<ActiveUniform>, reserved: seq<string>, custom: seq<string>)
      requires Valid() && uniform.Length == |reserved| + |custom|
      requires index == -1 || 0 <= index < |active|
      modifies this`totalUniformSize, this`activeTextureChannels, this`uniformMap, uniform, texture
      ensures index == -1 ==> UniformState() == old(UniformState())
      ensures index != -1 ==> UniformState() == MapOne(old(UniformState()), active[index], reserved, custom)
    {
      if index == -1 {
        return;
      }
      var u := active[index];
      ghost var t := UniformState();
      if u.size > 0 {
        totalUniformSize := totalUniformSize + u.size * SizeMultiplier(u.glType);
      }
      if u.location != -1 {
        var name := ChopArraySuffix(u.name);
        uniformMap := uniformMap[name := u.location];
        ghost var named := UniformState();
        assert named.uniform == t.uniform;
        var filled := FillFirstFree(reserved, 0, name, u.location, u.glType);
        if !filled {
          filled := FillFirstFree(custom, |reserved|, name, u.location, u.glType);
        }
        MapOneSlot(t, u, reserved, custom, named);
      }
    }

    /** mapUniforms: resets the counters and the map, sizes both tables to
        one -1 slot per reserved and custom name, then maps every active
        uniform in order. Never fails. */
    method MapUniforms(active: seq<ActiveUniform>, reserved: seq<string>, custom: seq<string>) returns (ok: bool)
      requires Valid()
      modifies this`totalUniformSize, this`activeTextureChannels, this`uniformMap, this`uniform, this`texture
      ensures Valid() && fresh(uniform) && fresh(texture)
      ensures ok
      ensures UniformState() == MapAll(Reset(|reserved| + |custom|), active, reserved, custom)
      ensures Dense(UniformState())
    {
      ResetUniforms(|reserved| + |custom|);
      MapEach(active, reserved, custom);
      MapAllDense(|reserved| + |custom|, active, reserved, custom);
      ok := true;
    }

    /** mapUniforms' reset: zero counters, an empty map, and `slots` -1 slots
        in both tables. */
    method ResetUniforms(slots: nat)
      requires Valid()
      modifies this`totalUniformSize, this`activeTextureChannels, this`uniformMap, this`uniform, this`texture
      ensures Valid() && fresh(uniform) && fresh(texture)
      ensures UniformState() == Reset(slots)
    {
      totalUniformSize := 0;
      activeTextureChannels := 0;
      uniformMap := map[];
      uniform := new int[slots](_ => -1);
      texture := new int[slots](_ => -1);
    }

    /** mapUniforms' loop: mapUniform for every active uniform in order. */
    method MapEach(active: seq<ActiveUniform>, reserved: seq<string>, custom: seq<string>)
      requires Valid() && uniform.Length == |reserved| + |custom|
      modifies this`totalUniformSize, this`activeTextureChannels, this`uniformMap, uniform, texture
      ensures UniformState() == MapAll(old(UniformState()), active, reserved, custom)
    {
      ghost var t := UniformState();
      var i := 0;
      while i < |active|
        invariant 0 <= i <= |active|
        invariant UniformState() == MapAll(t, active[..i], reserved, custom)
      {
        MapAllStep(t, active, i, reserved, custom);
        MapUniform(i, active, reserved, custom);
        i := i + 1;
      }
      assert active[..i] == active;
    }

    /** mapAttributes after the link: one -1 slot per reserved and custom
        attribute; when the link succeeded, the driver's locations fill the
        table and the mask records which reserved attributes were found. */
    method MapAttributes(linked: bool, reservedLocs: seq<int>, customLocs: seq<int>) returns (ok: bool)
      requires Valid() && |reservedLocs| <= 32
      modifies this`attribute, this`attributeMask
      ensures Valid() && fresh(attribute)
      ensures ok == linked
      ensures linked ==> attribute[..] == reservedLocs + customLocs && attributeMask == FoundMask(reservedLocs)
      ensures !linked ==> attribute.Length == |reservedLocs| + |customLocs| && attributeMask == old(attributeMask)
                          && forall k :: 0 <= k < attribute.Length ==> attribute[k] == -1
    {
      attribute := new int[|reservedLocs| + |customLocs|](_ => -1);
      if !linked {
        return false;
      }
      ReadReservedAttributes(reservedLocs);
      ReadCustomAttributes(reservedLocs, customLocs);
      return true;
    }

    /** mapAttributes' first loop: reserved attribute i found at a location
        other than -1 takes it in slot i and sets bit i of the mask. */
    method ReadReservedAttributes(locs: seq<int>)
      requires |locs| <= 32 && |locs| <= attribute.Length
      requires forall k :: 0 <= k < attribute.Length ==> attribute[k] == -1
      modifies attribute, this`attributeMask
      ensures attribute[..|locs|] == locs && attributeMask == FoundMask(locs)
      ensures forall k :: |locs| <= k < attribute.Length ==> attribute[k] == -1
    {
      attributeMask := 0;
      var i := 0;
      while i < |locs|
        invariant 0 <= i <= |locs|
        invariant forall k :: 0 <= k < i ==> attribute[k] == locs[k]
        invariant forall k :: i <= k < attribute.Length ==> attribute[k] == -1
        invariant attributeMask == FoundMask(locs[..i])
      {
        FoundMaskStep(locs, i);
        if locs[i] != -1 {
          attribute[i] := locs[i];
          attributeMask := WithBit(attributeMask, i);
        }
        i := i + 1;
      }
      assert locs[..i] == locs;
    }

    /** mapAttributes' second loop: custom attribute i found at a location
        other than -1 takes it in the slot after the reserved ones. */
    method ReadCustomAttributes(reservedLocs: seq<int>, locs: seq<int>)
      requires attribute.Length == |reservedLocs| + |locs| && attribute[..|reservedLocs|] == reservedLocs
      requires forall k :: |reservedLocs| <= k < attribute.Length ==> attribute[k] == -1
      modifies attribute
      ensures attribute[..] == reservedLocs + locs
    {
      var n := |reservedLocs|;
      var i := 0;
      while i < |locs|
        invariant 0 <= i <= |locs|
        invariant forall k :: 0 <= k < n ==> attribute[k] == reservedLocs[k]
        invariant forall k :: 0 <= k < i ==> attribute[n + k] == locs[k]
        invariant forall k :: n + i <= k < attribute.Length ==> attribute[k] == -1
      {
        if locs[i] != -1 {
          attribute[n + i] := locs[i];
        }
        i := i + 1;
      }
      forall k | 0 <= k < attribute.Length
        ensures attribute[k] == (reservedLocs + locs)[k]
      {
        if k >= n {
          assert attribute[n + (k - n)] == locs[k - n];
        }
      }
    }

    /** createShader's override for indexed texture rendering. */
    method RemapIndexedChannels(n: int)
      modifies texture
      ensures texture[..] == Remapped(old(texture[..]), n)
    {
      ghost var s := texture[..];
      ghost var r := Remapped(s, n);
      var cur := n;
      var i := 0;
      while i < texture.Length
        invariant 0 <= i <= texture.Length
        invariant forall k :: 0 <= k < i ==> texture[k] == r[k]
        invariant forall k :: i <= k < texture.Length ==> texture[k] == s[k]
        invariant cur == n + CountIndexed(s[..i], n)
      {
        RemappedAt(s, n, i);
        CountIndexedStep(s, n, i);
        if texture[i] > -1 && texture[i] < n {
          texture[i] := cur;
          cur := cur + 1;
        }
        i := i + 1;
      }
      assert texture[..] == r;
    }

    /** What mapAttributes leaves after a failed link: `n` slots, all -1. */
    ghost predicate AttributesUnset(n: nat)
      reads this, attribute
    {
      attribute.Length == n && forall k :: 0 <= k < n ==> attribute[k] == -1
    }

    /** The state a successful try leaves: the tables mapped from its
        answers, with the indexed range overridden when indexed rendering is on. */
    ghost predicate Loaded(a: Attempt, mgr: ShaderManager, uniforms: seq<string>, legacyBatching: bool)
      reads this, uniform, texture, attribute
    {
      && |a.reservedAttribLocs| <= 32
      && indexedTextureChannels == ClampedChannels(a.indexedChannels, legacyBatching)
      && attribute[..] == a.reservedAttribLocs + a.customAttribLocs
      && attributeMask == FoundMask(a.reservedAttribLocs)
      && UniformsLoaded(a, mgr, uniforms)
    }

    /** The uniform side of Loaded. */
    ghost predicate UniformsLoaded(a: Attempt, mgr: ShaderManager, uniforms: seq<string>)
      reads this, uniform, texture
    {
      var t := MapAll(Reset(|mgr.reservedUniforms| + |uniforms|), a.activeUniforms, mgr.reservedUniforms, uniforms);
      && uniform[..] == t.uniform
      && activeTextureChannels == t.channels
      && totalUniformSize == t.totalSize
      && uniformMap == t.names
      && texture[..] == (if indexedTextureChannels > 0 then Remapped(t.texture, indexedTextureChannels) else t.texture)
    }

    /** createShader: try `attempts[0]` at the current level; when compiling
        or linking fails, drop one level and try the next, down to level 0. */
    method CreateShader(mgr: ShaderManager, attributes: seq<string>, uniforms: seq<string>,
                        legacyBatching: bool, attempts: seq<Attempt>) returns (ok: bool)
      requires Valid() && |shaderFiles| > 0 && |mgr.reservedAttribs| <= 32
      requires |attempts| > MaxRetries(shaderLevel)
      requires forall j :: 0 <= j < |attempts| ==> Fits(attempts[j], mgr, attributes, |shaderFiles|)
      modifies this`programObject, this`shaderLevel, this`indexedTextureChannels, this`attribute,
               this`attributeMask, this`uniform, this`texture, this`totalUniformSize,
               this`activeTextureChannels, this`uniformMap
      ensures Valid()
      ensures var r := Fallback(old(shaderLevel), attempts); ok == r.ok && shaderLevel == r.level
      ensures !ok ==> programObject == 0
      ensures ok ==> var a := attempts[Fallback(old(shaderLevel), attempts).last];
                     programObject == a.program && Loaded(a, mgr, uniforms, legacyBatching)
      // A failed call leaves the uniform tables and the mask as they were; the
      // attribute table is the old one, or all -1 when a try reached the link.
      ensures !ok ==> && uniform == old(uniform) && texture == old(texture)
                      && UniformState() == old(UniformState()) && attributeMask == old(attributeMask)
      ensures !ok ==> var last := Fallback(old(shaderLevel), attempts).last;
                      ReachedLink(attempts, last) ==> AttributesUnset(|mgr.reservedAttribs| + |attributes|)
      ensures !ok ==> var last := Fallback(old(shaderLevel), attempts).last;
                      !ReachedLink(attempts, last) ==> attribute == old(attribute) && attribute[..] == old(attribute[..])
      // The indexed-channel count is the clamped count of the last try that
      // attached its features.
      ensures var last := Fallback(old(shaderLevel), attempts).last;
              attempts[last].featuresAttached ==>
                indexedTextureChannels == ClampedChannels(attempts[last].indexedChannels, legacyBatching)
      ensures var last := Fallback(old(shaderLevel), attempts).last;
              !attempts[last].featuresAttached && last > 0 ==>
                indexedTextureChannels == ClampedChannels(attempts[last - 1].indexedChannels, legacyBatching)
      // A failure to attach the features touches nothing but the program.
      ensures !attempts[0].featuresAttached ==>
                && indexedTextureChannels == old(indexedTextureChannels)
                && attribute == old(attribute) && attribute[..] == old(attribute[..])
                && attributeMask == old(attributeMask)
                && uniform == old(uniform) && texture == old(texture) && UniformState() == old(UniformState())
      decreases |attempts|, 1
    {
      var a := attempts[0];
      assert Fits(a, mgr, attributes, |shaderFiles|);
      programObject := a.program;
      var compiled := CompileFiles(a.fileHandles);
      if !a.featuresAttached {
        programObject := 0;
        return false;
      }
      ok := LinkAndMap(a, compiled, mgr, attributes, uniforms, legacyBatching);
      if !ok {
        programObject := 0;
        if shaderLevel > 0 {
          ok := Retry(mgr, attributes, uniforms, legacyBatching, attempts);
        }
      }
    }

    /** createShader's retry: after a try attached its features but did not
        compile or link, drop one shader level and try again with the
        remaining tries. */
    method Retry(mgr: ShaderManager, attributes: seq<string>, uniforms: seq<string>,
                 legacyBatching: bool, attempts: seq<Attempt>) returns (ok: bool)
      requires Valid() && |shaderFiles| > 0 && |mgr.reservedAttribs| <= 32
      requires |attempts| > MaxRetries(shaderLevel) && shaderLevel > 0
      requires forall j :: 0 <= j < |attempts| ==> Fits(attempts[j], mgr, attributes, |shaderFiles|)
      requires attempts[0].featuresAttached && !Succeeds(attempts[0])
      requires indexedTextureChannels == ClampedChannels(attempts[0].indexedChannels, legacyBatching)
      requires FilesCompiled(attempts[0]) ==> AttributesUnset(|mgr.reservedAttribs| + |attributes|)
      modifies this`programObject, this`shaderLevel, this`indexedTextureChannels, this`attribute,
               this`attributeMask, this`uniform, this`texture, this`totalUniformSize,
               this`activeTextureChannels, this`uniformMap
      ensures Valid()
      ensures var r := Fallback(old(shaderLevel), attempts); ok == r.ok && shaderLevel == r.level
      ensures !ok ==> programObject == 0
      ensures ok ==> var a := attempts[Fallback(old(shaderLevel), attempts).last];
                     programObject == a.program && Loaded(a, mgr, uniforms, legacyBatching)
      ensures !ok ==> && uniform == old(uniform) && texture == old(texture)
                      && UniformState() == old(UniformState()) && attributeMask == old(attributeMask)
      ensures !ok ==> var last := Fallback(old(shaderLevel), attempts).last;
                      ReachedLink(attempts, last) ==> AttributesUnset(|mgr.reservedAttribs| + |attributes|)
      ensures !ok ==> var last := Fallback(old(shaderLevel), attempts).last;
                      !ReachedLink(attempts, last) ==> attribute == old(attribute) && attribute[..] == old(attribute[..])
      ensures var last := Fallback(old(shaderLevel), attempts).last;
              attempts[last].featuresAttached ==>
                indexedTextureChannels == ClampedChannels(attempts[last].indexedChannels, legacyBatching)
      ensures var last := Fallback(old(shaderLevel), attempts).last;
              !attempts[last].featuresAttached ==>
                indexedTextureChannels == ClampedChannels(attempts[last - 1].indexedChannels, legacyBatching)
      decreases |attempts|, 0
    {
      ghost var last := Fallback(shaderLevel, attempts).last;
      shaderLevel := shaderLevel - 1;
      ok := CreateShader(mgr, attributes, uniforms, legacyBatching, attempts[1..]);
      ReachedLinkStep(attempts, last);
      assert attempts[last] == attempts[1..][last - 1];
      assert last > 1 ==> attempts[last - 1] == attempts[1..][last - 2];
    }

    /** createShader's loop over the shader files: every file is attempted,
        and the shader compiled when every handle is a real object. */
    method CompileFiles(handles: seq<int>) returns (success: bool)
      requires |handles| == |shaderFiles|
      ensures success <==> forall j :: 0 <= j < |handles| ==> handles[j] > 0
    {
      success := true;
      var i := 0;
      while i < |shaderFiles|
        invariant 0 <= i <= |shaderFiles|
        invariant success <==> forall j :: 0 <= j < i ==> handles[j] > 0
      {
        if handles[i] <= 0 {
          success := false;
        }
        i := i + 1;
      }
    }

    /** The rest of one try once its features are attached: set the indexed
        channel count (clamped under legacy batching), map the attributes
        when the files compiled, map the uniforms when that linked, and
        override the indexed range on success. */
    method LinkAndMap(a: Attempt, compiled: bool, mgr: ShaderManager, attributes: seq<string>,
                      uniforms: seq<string>, legacyBatching: bool) returns (success: bool)
      requires Valid() && |mgr.reservedAttribs| <= 32 && Fits(a, mgr, attributes, |shaderFiles|)
      requires compiled == FilesCompiled(a)
      modifies this`indexedTextureChannels, this`attribute, this`attributeMask, this`uniform, this`texture,
               this`totalUniformSize, this`activeTextureChannels, this`uniformMap
      ensures Valid()
      ensures success == Succeeds(a)
      ensures success ==> Loaded(a, mgr, uniforms, legacyBatching)
      ensures indexedTextureChannels == ClampedChannels(a.indexedChannels, legacyBatching)
      // A failed try leaves the uniform tables and the mask alone; a link
      // failure empties the attribute table to -1 slots, a compile failure
      // never reaches it.
      ensures !success ==> && uniform == old(uniform) && texture == old(texture)
                           && UniformState() == old(UniformState()) && attributeMask == old(attributeMask)
      ensures !compiled ==> attribute == old(attribute) && attribute[..] == old(attribute[..])
      ensures compiled && !a.linked ==> fresh(attribute) && AttributesUnset(|a.reservedAttribLocs| + |a.customAttribLocs|)
    {
      indexedTextureChannels := ClampedChannels(a.indexedChannels, legacyBatching);
      success := compiled;
      if success {
        success := MapAttributes(a.linked, a.reservedAttribLocs, a.customAttribLocs);
      }
      if success {
        success := MapUniformsAndRemap(a, mgr, uniforms);
      }
    }

    /** The linked branch of a try: mapUniforms, then the indexed override. */
    method MapUniformsAndRemap(a: Attempt, mgr: ShaderManager, uniforms: seq<string>) returns (success: bool)
      requires Valid()
      modifies this`uniform, this`texture, this`totalUniformSize, this`activeTextureChannels, this`uniformMap
      ensures Valid() && fresh(uniform) && fresh(texture)
      ensures success && UniformsLoaded(a, mgr, uniforms)
    {
      success := MapUniforms(a.activeUniforms, mgr.reservedUniforms, uniforms);
      if indexedTextureChannels > 0 {
        RemapIndexedChannels(indexedTextureChannels);
      }
    }

    /** getUniformLocation by slot: the slot's location while a program exists, else -1. */
    method GetUniformLocation(index: nat) returns (location: int)
      requires programObject > 0 ==> index < uniform.Length
      ensures programObject > 0 ==> location == uniform[index]
      ensures programObject == 0 ==> location == -1
    {
      location := -1;
      if programObject > 0 {
        return uniform[index];
      }
    }

    /** getAttribLocation: the attribute's location, or -1 out of range. */
    method GetAttribLocation(attrib: nat) returns (location: int)
      ensures attrib < attribute.Length ==> location == attribute[attrib]
      ensures attrib >= attribute.Length ==> location == -1
    {
      if attrib < attribute.Length {
        return attribute[attrib];
      } else {
        return -1;
      }
    }

    /** bindTexture by slot: the slot's channel, or -1 out of range; the
        texture unit it binds is that channel when it is above -1. */
    method BindTexture(index: int) returns (channel: int, unit: Option<int>)
      ensures !(0 <= index < texture.Length) ==> channel == -1 && unit == None
      ensures 0 <= index < texture.Length ==> channel == texture[index] && (unit.Some? <==> channel > -1)
      ensures unit.Some? ==> unit.value == channel
    {
      if index < 0 || index >= texture.Length {
        return -1, None;
      }
      channel := texture[index];
      unit := if channel > -1 then Some(channel) else None;
    }

    /** unbindTexture by slot: as bindTexture, unbinding instead. */
    method UnbindTexture(index: int) returns (channel: int, unit: Option<int>)
      ensures !(0 <= index < texture.Length) ==> channel == -1 && unit == None
      ensures 0 <= index < texture.Length ==> channel == texture[index] && (unit.Some? <==> channel > -1)
      ensures unit.Some? ==> unit.value == channel
    {
      if index < 0 || index >= texture.Length {
        return -1, None;
      }
      channel := texture[index];
      unit := if channel > -1 then Some(channel) else None;
    }

    /** enableTexture: the slot's channel, or -1 out of range; the unit it
        activates and enables is that channel when it is not -1. */
    method EnableTexture(index: int) returns (channel: int, unit: Option<int>)
      ensures !(0 <= index < texture.Length) ==> channel == -1 && unit == None
      ensures 0 <= index < texture.Length ==> channel == texture[index] && (unit.Some? <==> channel != -1)
      ensures unit.Some? ==> unit.value == channel
    {
      if index < 0 || index >= texture.Length {
        return -1, None;
      }
      channel := texture[index];
      unit := if channel != -1 then Some(channel) else None;
    }

    /** disableTexture: the slot's channel, or -1 out of range; the unit it
        disables is that channel when it is not -1 and the unit has a texture
        type set (`typedUnits` holds those units). */
    method DisableTexture(index: int, typedUnits: set<int>) returns (channel: int, unit: Option<int>)
      ensures !(0 <= index < texture.Length) ==> channel == -1 && unit == None
      ensures 0 <= index < texture.Length ==>
                channel == texture[index] && (unit.Some? <==> channel != -1 && channel in typedUnits)
      ensures unit.Some? ==> unit.value == channel
    {
      if index < 0 || index >= texture.Length {
        return -1, None;
      }
      channel := texture[index];
      unit := if channel != -1 && channel in typedUnits then Some(channel) else None;
    }

    /** addPermutation: defines `name` as `value`, replacing any earlier value. */
    method AddPermutation(name: string, value: string)
      modifies this`defines
      ensures name in defines && defines[name] == value
      ensures defines.Keys == old(defines).Keys + {name}
      ensures forall k :: k in old(defines) && k != name ==> defines[k] == old(defines)[k]
    {
      defines := defines[name := value];
    }

    /** removePermutation: empties the value of `name`; the name itself stays
        in the map (and is added when it was absent). */
    method RemovePermutation(name: string)
      modifies this`defines
      ensures name in defines && defines[name] == ""
      ensures defines.Keys == old(defines).Keys + {name}
      ensures forall k :: k in old(defines) && k != name ==> defines[k] == old(defines)[k]
    {
      defines := defines[name := ""];
    }
  }
}
