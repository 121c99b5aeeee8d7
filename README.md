# LLGLSLShader bookkeeping, modelled in Dafny

This project models the bookkeeping that `LLGLSLShader` (in
`indra/llrender/llglslshader.cpp`) does around the OpenGL driver:

- the uniform table `mUniform` and texture-channel table `mTexture` that
  `mapUniforms` resets and `mapUniform` fills, slot by slot, by matching each
  active uniform's name (with a trailing `[0]` chopped off) against the shader
  manager's reserved uniform names first and the shader's own uniform names
  second;
- the sampler channel counter `mActiveTextureChannels` handed out by
  `mapUniformTextureChannel`, and the running `mTotalUniformSize`;
- the attribute table `mAttribute` and the bitmask `mAttributeMask` of
  reserved attributes the linker placed, filled by `mapAttributes`;
- `createShader`'s retry at a lower shader level, its legacy clamp of the
  indexed-channel count, and its override that moves channels out of the
  indexed range `[0, channel_count)`;
- the range-checked accessors `bindTexture`, `unbindTexture`,
  `enableTexture`, `disableTexture` and `getAttribLocation`, and
  `getUniformLocation`, which checks only that a program exists;
- the define map edited by `addPermutation` and `removePermutation`, and
  `unload`'s clearing of the tables.

The driver is not modelled; its answers are inputs:

- the active uniforms `glGetActiveUniformARB` and `glGetUniformLocationARB`
  report, as (name, size, type, location) records;
- the link result;
- the attribute locations `glGetAttribLocationARB` returns;
- the handles `loadShaderFile` returns for each file;
- whether `attachShaderFeatures` succeeds and the indexed-channel count it
  leaves.

One try of `createShader` is an `Attempt` record holding these answers.
Try `j` runs at the initial shader level minus `j`.

Modules:

- `Wrappers`: `Option`.
- `GlslNames`: `strstr` and the `[0]` chop.
- `UniformTables`: what `mapUniform` and `mapUniforms` do to the tables, as
  pure functions over a `Tables` value, and the channel invariant.
- `ChannelRemap`: the indexed-texture override as a function on the
  channel sequence.
- `AttributeTables`: the attribute mask as a `bv32`.
- `LevelFallback`: which try `createShader` stops at and what it returns.
- `GlslShader`: the class `Shader`, whose array fields `uniform`, `texture`
  and `attribute` its methods update in place. Each method is proved
  against the specification functions above.

## Model

| member | source | states |
|---|---|---|
| GlslNames.FindFrom | indra/llrender/llglslshader.cpp:421 | `strstr`: the result is an occurrence of the pattern at or after the start, and no earlier position holds one; none means no occurrence at all |
| GlslNames.ChopArraySuffix | indra/llrender/llglslshader.cpp:419-425 | the chopped name is a prefix of the driver's name, ending just before the first `[0]`; a name without `[0]` is unchanged |
| GlslNames.ChopIdempotent | indra/llrender/llglslshader.cpp:419-428 | a chopped name holds no `[0]`, so chopping again changes nothing |
| UniformTables.SizeMultiplier | indra/llrender/llglslshader.cpp:375-411 | the size factor per GL type lies in 1..32, and a sampler counts once |
| UniformTables.SizeContribution | indra/llrender/llglslshader.cpp:373-413 | a uniform adds nothing to mTotalUniformSize unless its size is positive, then between size and 32 times size, and exactly size for a sampler |
| UniformTables.Reset | indra/llrender/llglslshader.cpp:488-499 | both tables get one slot per reserved and custom name, every entry -1; both counters are 0 and the map is empty |
| UniformTables.FirstFree | indra/llrender/llglslshader.cpp:433-443 | the search finds the first index whose name matches and whose slot is still -1; none earlier matches; none means no index matches |
| UniformTables.TargetSlot | indra/llrender/llglslshader.cpp:432-458 | the slot filled is a free slot owned by the name. A reserved slot is taken only if it is the first free match; a custom slot only if no reserved slot matches and it is the first free custom match. No slot means no match in either list |
| UniformTables.MapOne | indra/llrender/llglslshader.cpp:372-413 | mapUniform keeps the table lengths and adds exactly the uniform's size contribution to the total |
| UniformTables.MapOneChanges | indra/llrender/llglslshader.cpp:358-460 | a uniform without a location changes only the size total. Otherwise the map learns the chopped name, a slot already set is never overwritten, and at most one slot changes. A channel is taken exactly when a sampler with a location finds a free slot |
| UniformTables.MapOneFillsTargetSlot | indra/llrender/llglslshader.cpp:435-455 | the slot filled was free and owned by the chopped name; it now holds the location, and its channel is the old counter for a sampler and -1 otherwise |
| UniformTables.MapOneWithoutSlotFillsNothing | indra/llrender/llglslshader.cpp:416-459 | with location -1, or with no free slot of that name, neither table nor the channel counter changes |
| UniformTables.MapAll | indra/llrender/llglslshader.cpp:507-510 | mapping every active uniform keeps the table lengths |
| UniformTables.SumSizes | indra/llrender/llglslshader.cpp:373-413 | the sum of the uniforms' size contributions is never negative |
| UniformTables.MapAllTotalSize | indra/llrender/llglslshader.cpp:484-516 | after a pass, the total has grown by exactly the sum of the uniforms' contributions |
| UniformTables.ResetDense | indra/llrender/llglslshader.cpp:488-499 | the reset tables satisfy the channel invariant |
| UniformTables.FillKeepsDense | indra/llrender/llglslshader.cpp:472-482 | filling a free slot with a real location, and giving a sampler the next channel, keeps the channel invariant |
| UniformTables.MapOneKeepsDense | indra/llrender/llglslshader.cpp:416-458 | mapUniform keeps the channel invariant |
| UniformTables.MapAllDense | indra/llrender/llglslshader.cpp:484-516 | after mapUniforms, an unset uniform slot has channel -1, and the channels in use are exactly 0 .. mActiveTextureChannels-1, each held by one slot |
| ChannelRemap.CountIndexed | indra/llrender/llglslshader.cpp:235-244 | the number of entries in the indexed range is at most the sequence length |
| ChannelRemap.Remapped | indra/llrender/llglslshader.cpp:235-244 | the override keeps the length of mTexture |
| ChannelRemap.RemappedAt | indra/llrender/llglslshader.cpp:235-244 | entry k becomes channel_count plus the number of indexed entries before it when it was indexed, and is unchanged otherwise |
| ChannelRemap.CountIndexedGrows | indra/llrender/llglslshader.cpp:235-244 | between two indexed entries the count of indexed entries before them strictly grows |
| ChannelRemap.RemappedProperties | indra/llrender/llglslshader.cpp:235-244 | entries outside [0, channel_count) are untouched. Entries inside it are rewritten, in slot order, to strictly increasing channels from channel_count, and no entry is left in the range |
| ChannelRemap.RemapCanCollide | indra/llrender/llglslshader.cpp:235-244 | the override can put two slots on the same channel: [0, 1] with channel_count 1 becomes [1, 1] |
| AttributeTables.WithBitBit | indra/llrender/llglslshader.cpp:334 | or-ing `1 << n` into the mask sets bit n and leaves every other bit as it was |
| AttributeTables.FoundMaskBit | indra/llrender/llglslshader.cpp:324-337 | bit j of mAttributeMask is set exactly when reserved attribute j exists and the linker gave it a location other than -1 |
| LevelFallback.Fallback | indra/llrender/llglslshader.cpp:208-223 | createShader makes at most as many retries as the starting level, and ends at the starting level minus the retries |
| LevelFallback.FallbackCharacterised | indra/llrender/llglslshader.cpp:178-223 | every try before the last attached its features and failed. The call succeeds exactly when the last try attached its features, compiled and linked. A failure after attaching features happens only at level 0 or below |
| LevelFallback.FeaturesFailureIsFinal | indra/llrender/llglslshader.cpp:178-184 | a failure to attach the shader features returns FALSE at once, at the same level, with no retry |
| GlslShader.ClampedChannels | indra/llrender/llglslshader.cpp:186-190 | under legacy texture batching the indexed-channel count becomes min(n, 1): n when n is at most 1, and exactly 1 otherwise; without it the count is unchanged |
| GlslShader.Shader.constructor | indra/llrender/llglslshader.cpp:87-98 | a new shader has no program, level 0, an empty mask, zero counters and empty tables, maps and file list |
| GlslShader.Shader.Unload | indra/llrender/llglslshader.cpp:104-134 | the attribute, texture and uniform tables, the file list and the defines are emptied and the program is dropped; nothing else changes |
| GlslShader.Shader.MapUniformTextureChannel | indra/llrender/llglslshader.cpp:472-482 | a sampler type gets the old mActiveTextureChannels, which grows by one; any other type gets -1 and leaves the counter alone |
| GlslShader.Shader.FillFirstFree | indra/llrender/llglslshader.cpp:433-443 | the first free slot of the name takes the location and its channel, and the search stops; with no such slot nothing changes |
| GlslShader.Shader.MapUniform | indra/llrender/llglslshader.cpp:358-460 | index -1 changes nothing; otherwise the tables, counters and map become MapOne of the old ones |
| GlslShader.Shader.MapUniforms | indra/llrender/llglslshader.cpp:484-516 | returns TRUE. The tables are reset and every active uniform is mapped in order. The result satisfies the channel invariant |
| GlslShader.Shader.ResetUniforms | indra/llrender/llglslshader.cpp:488-499 | the counters are zero, the map is empty, and both tables are new arrays of -1 |
| GlslShader.Shader.MapEach | indra/llrender/llglslshader.cpp:507-510 | the state becomes MapAll of the old state over the active uniforms |
| GlslShader.Shader.MapAttributes | indra/llrender/llglslshader.cpp:305-356 | returns the link result. After a link, the table is the reserved then the custom locations and the mask records the found reserved ones. After a failed link, every entry is -1 and the mask is untouched |
| GlslShader.Shader.ReadReservedAttributes | indra/llrender/llglslshader.cpp:324-337 | the reserved slots hold the reserved locations and the mask is the found-mask; later slots stay -1 |
| GlslShader.Shader.ReadCustomAttributes | indra/llrender/llglslshader.cpp:338-350 | the custom slots, after the reserved ones, hold the custom locations |
| GlslShader.Shader.RemapIndexedChannels | indra/llrender/llglslshader.cpp:235-244 | mTexture becomes the remapped sequence of its old contents |
| GlslShader.Shader.CreateShader | indra/llrender/llglslshader.cpp:136-249 | the result and final level are those of the fallback policy. A success holds the last try's program and the tables loaded from its answers: attributes, mask, uniforms, channels, sizes, map, and the overridden texture channels when indexed rendering is on. A failure leaves no program and keeps the uniform tables, counters, map and mask. After a failure the attribute table is all -1 when some try attached its features and compiled, and the old table otherwise. The indexed-channel count is the clamped count of the last try that attached its features. A features failure on the first try changes nothing but the program |
| GlslShader.Shader.Retry | indra/llrender/llglslshader.cpp:208-222 | after a try that attached its features and failed at a level above 0, the level drops by one and createShader runs again. The outcome, the attribute table and the indexed-channel count are as stated for CreateShader |
| GlslShader.Shader.CompileFiles | indra/llrender/llglslshader.cpp:162-175 | compilation succeeds exactly when every shader file produced a handle above 0 |
| GlslShader.Shader.LinkAndMap | indra/llrender/llglslshader.cpp:186-246 | a try with its features attached sets the indexed-channel count to the clamped count on every path. It succeeds exactly when its files compiled and it linked; on success the tables are loaded as above. A failed try keeps the uniform tables, counters, map and mask. A compile failure keeps the attribute table; a link failure leaves a new attribute table of one -1 slot per reserved and custom attribute |
| GlslShader.Shader.MapUniformsAndRemap | indra/llrender/llglslshader.cpp:204-246 | the linked branch maps the uniforms, then overrides the indexed channels when the count is positive |
| GlslShader.Shader.GetUniformLocation | indra/llrender/llglslshader.cpp:668-678 | with a program, the slot's location; without one, -1 |
| GlslShader.Shader.GetAttribLocation | indra/llrender/llglslshader.cpp:680-690 | the attribute's location when in range, else -1 |
| GlslShader.Shader.BindTexture | indra/llrender/llglslshader.cpp:581-597 | -1 out of range, else the slot's channel; a unit is bound exactly when that channel is above -1, and it is that channel |
| GlslShader.Shader.UnbindTexture | indra/llrender/llglslshader.cpp:607-623 | -1 out of range, else the slot's channel; a unit is unbound exactly when that channel is above -1 |
| GlslShader.Shader.EnableTexture | indra/llrender/llglslshader.cpp:625-639 | -1 out of range, else the slot's channel; a unit is activated and enabled exactly when that channel is not -1 |
| GlslShader.Shader.DisableTexture | indra/llrender/llglslshader.cpp:641-666 | -1 out of range, else the slot's channel; a unit is disabled exactly when that channel is not -1 and the unit has a texture type set |
| GlslShader.Shader.AddPermutation | indra/llrender/llglslshader.cpp:462-465 | the name is defined as the value; other defines are unchanged |
| GlslShader.Shader.RemovePermutation | indra/llrender/llglslshader.cpp:467-470 | the name's value becomes empty but the name stays defined (it is added when absent); other defines are unchanged |

## Left out

- OpenGL calls are not modelled. This covers program creation and deletion, `glBindAttribLocationARB`, the `glUniform1iARB` calls that tell a sampler its channel, the `uniform1i` calls of the indexed override, and texture-unit binding. Only the tables these calls feed are modelled.
- `bind`, `unbind`, `bindNoShader`, `link` and `attachObject` are not modelled. Their effects are global GL state, and the link result is an input.
- `loadShaderFile` and `attachShaderFeatures` belong to the shader manager, which is not part of this model. Their results are inputs of each try.
- `createShader`'s reset of the matrix and light hashes is not modelled; it is state for other parts of the renderer.
- The transform-feedback varyings are not modelled. The source also drops them on a retry, because the recursive call uses the default arguments.
- `Shader.CreateShader` does not model the `LL_DARWIN` branches, the `OLD_SELECT` define or the skipped size accounting. It models the non-Darwin build.
- `createShader`'s legacy condition is a single input. In the source it is a GLSL version below 1.3 or the legacy-batching setting.
- `mapUniforms`' clearing of the uniform value caches `mValueVec4`, `mValueMat3` and `mValueMat4` is not modelled. These caches are written by the uniform setters, which are not part of this model.
- The 1024-byte name buffer of `glGetActiveUniformARB` is not modelled. A name is a whole string, never truncated.
- `Shader.MapUniform` does not model 32-bit overflow of `mTotalUniformSize` or of `size *= k`; counters are unbounded integers.
- `Shader.MapUniformTextureChannel` does not model 32-bit overflow of `mActiveTextureChannels`.
- `Shader.RemapIndexedChannels` does not model 32-bit overflow of `cur_tex`.
- `Shader.MapUniformTextureChannel` takes no `location` parameter. In the source the location is used only for the GL call.
- `Shader.MapAttributes` requires at most 32 reserved attributes. In the source, `1 << i` beyond bit 31 is undefined behaviour in C++.
- `Shader.CreateShader` also requires at most 32 reserved attributes, for the same reason.
- `Shader.CreateShader` turns the source's `llassert_always(!mShaderFiles.empty())`, which aborts the program, into a precondition: a shader has at least one file.
- `Shader.constructor` does not model the registration of the new shader in the shader manager's global shader list; that list is outside the model.
- `Shader.GetUniformLocation` turns the source's debug assertion `index < mUniform.size()` into a precondition. A release build reading past the table is undefined behaviour and is not modelled.
- `Shader.RemapIndexedChannels` does not model the debug assertion that `cur_tex` stays below the number of texture image units, which is a driver limit.
- `Shader.DisableTexture` does not model the debug check for a corrupted texture type or its failure report. Which units have a texture type set is an input set.
- `bindTexture` and `unbindTexture` by uniform name are not modelled. Looking up a uniform by name (`getUniformLocation` with a string) is outside this model.
- `vertexAttrib4f`, `setMinimumAlpha` and `shouldChange` are not modelled; they are value setters with no bookkeeping of their own.
- A NULL attribute list is modelled as an empty sequence, and so is a NULL uniform list.
- The GL type enumerants take their values from the OpenGL headers.
- The other files that come with this component are not modelled: `indra/llwindow/llwindowmacosx.h` (windowing), `indra/newview/llpanelexperiences.cpp` and `indra/newview/llscrollingpanelparam.h` (user interface), and `indra/llmessage/llcororesponder.h` (HTTP plumbing).
