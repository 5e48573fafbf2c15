# webgl-pbr-demo, CPU side, in Dafny

This project models the JavaScript core of a WebGL physically based
rendering demo: everything the CPU decides before the GPU runs a shader.
WebGL is an abstract device. It appends every call to a log
(`GL.Device.calls`, a `seq<GLCall>`) and hands out opaque integer handles.
Matrix entries are `real`.

The model covers these parts of the program:

- **`Math` (math.js).** The column-major 16-slot `Matrix4`, a class over an
  `array<real>`, and its in-place methods. Each method is proved against a
  pure function on `seq<real>`: `Transposed`, `Mul`, `Composed`, `Inverse`.
  Also the `Quaternion` default and the 32-bit `isPowerOfTwo` test.
- **`TextureUnits` (GLTextures.js).** The texture-unit counter with its
  non-fatal overflow report.
- **`States` (GLStates.js).** The cached GPU-state setters. A setter issues a
  device call only when the value changes. The spec is a pure `Apply` over a
  `Setting` datatype.
- **`Shader` (GLShader.js).** The reflection tables built in loops,
  `setUniform`'s type-tag dispatch, `setAttribute`, `use`, the line-numbered
  compile diagnostic, and the call sequence `compile` issues.
- **`Gltf` (the parts both renderers share).** The glTF document, the
  accessor size table, buffer-view slicing and memoising upload caches.
  Also node transforms, which follow section 3.5.3 of the glTF 2.0
  specification but read the misspelled `ratation` key. The pre-order
  traversal is the `Visits` list, with world = parent × local; the draw
  list comes from it.
- **`GltfRenderer` (renderers/glTFRenderer.js).** The newer renderer. It
  goes through `GLShader`, resets the allocator per primitive and calls
  `use()` in `renderScene`.
- **`LegacyRenderer` (glTFRenderer.js).** The older renderer. It uses raw
  locations and fixed texture units, a cache hit re-binds the texture, and
  it never switches programs after `compileShader`.
- **`CubeRenderer` (renderers/EquirectangularToCubeRenderer.js).** The
  36-vertex cube table, `initCube`'s upload protocol and `renderCube`'s
  reset-then-bind draw protocol.
- **`GltfLoader` (loaders/glTFLoader.js).** `dirname`, resource paths and
  the byte-length check on each fetched buffer.
- **`Text`.** JavaScript's `split`, `join`, `indexOf` and `lastIndexOf` on
  one-character separators, and the decimal rendering of a `nat`.

Queries the program makes of WebGL are parameters of the model, not log
entries. These are compile and link status, info logs, active uniforms and
attributes, uniform locations and `MAX_TEXTURE_IMAGE_UNITS`. Likewise,
`console.error` and `console.log` become returned values: a `found` flag, a
`reported` flag, or a list of diagnostics. `GLContext.gl` becomes an explicit
`GL.Device` passed to each class. The static allocator becomes one
`TextureUnits.Allocator` object that the shaders and renderers share.

Two source quirks are kept literally:

- `setViewport` caches `(x, y, w, h)` but calls `viewport(w, y, w, h)`.
- A node's `rotation` is never read, only `ratation`.

Two others are corrected, and both renderers use the corrected versions (see
"## Findings"): a buffer view without `byteOffset` uploads its bytes from
offset 0 (`Gltf.ViewBytes`), and a primitive without `mode` draws TRIANGLES
(`Gltf.DrawMode`). The literal versions are `Gltf.ViewBytesAsWritten` and
`Gltf.DrawModeAsWritten`. `Gltf.ViewBytesAgree` and
`Gltf.DrawModeAsWrittenDrawsPoints` prove that the two coincide whenever the
property is present. So on a document that gives every view a `byteOffset`
and every primitive a `mode`, every upload and draw the model states is the
source's own.

The recursive renderers need the node graph to be acyclic. This is stated
by a ghost rank sequence, given at construction, under which every child
ranks below its parent.

## Model

| member | source | states |
|---|---|---|
| GL.Device.constructor | GLContext.js:1-14 | A new device has an empty call log and hands out handles from 1. |
| GL.Device.Issue | GLContext.js:1-14 | A device call appends exactly that call to the log and creates no handle. |
| GL.Device.IssueAll | GLContext.js:1-14 | A sequence of device calls is appended in order and creates no handle. |
| GL.Device.CreateObject | GLContext.js:1-14 | `createBuffer`/`createTexture`/`createProgram`/`createShader` return the next unused handle and log one `Create` call. |
| GL.ArgOr0 | renderers/glTFRenderer.js:124-125 | An absent (undefined) integer argument reaches WebGL as 0; a present one unchanged. |
| GL.Draws | renderers/glTFRenderer.js:184-189 | Every entry of a log's draw list is a `drawElements` or `drawArrays`, and there are never more draws than calls. |
| GL.DrawsMembers | renderers/glTFRenderer.js:184-189 | A call is among a log's draws if and only if the log holds it and it is a `drawElements` or `drawArrays`. |
| GL.DrawsSingle | renderers/glTFRenderer.js:184-189 | A single call is its own draw list when it is a draw and contributes nothing otherwise; with `DrawsAppend` this makes `Draws` the in-order filter of draw calls. |
| GL.DrawsAppend | renderers/glTFRenderer.js:158-190 | The draws of a concatenated log are the draws of the first part followed by those of the second. |
| GL.DrawsNone | renderers/glTFRenderer.js:104-148 | A log without draw calls contributes no draws. |
| GL.Created | renderers/glTFRenderer.js:121-122 | The handles a log creates, in creation order. |
| GL.CreatedAppend | renderers/glTFRenderer.js:121-122 | The handles created by a concatenated log are those of each part in order. |
| GL.CreatedNone | renderers/glTFRenderer.js:110-114 | A log without create calls creates no handle. |
| Text.IndexOf | loaders/glTFLoader.js:32 | `indexOf` on a present character returns its first position. |
| Text.LastIndexOf | loaders/glTFLoader.js:32 | The last position of a present character: nothing after it is that character. |
| Text.LastIndexOfUnique | loaders/glTFLoader.js:32 | Any position holding the character with none after it is the last index. |
| Text.Split | loaders/glTFLoader.js:30 | `split` always yields at least one piece, the empty string giving `[""]`. |
| Text.SplitPiecesFree | loaders/glTFLoader.js:30 | No piece of a split contains the separator. |
| Text.JoinSplit | loaders/glTFLoader.js:34 | Joining the pieces of a split with the same separator gives back the string. |
| Text.SplitJoin | GLShader.js:169-174 | Splitting a join of separator-free pieces gives back the pieces. |
| Text.SplitCons | loaders/glTFLoader.js:30 | Split of `p + sep + r`, with `p` separator-free, is `p` followed by the split of `r`. |
| Text.JoinAllButLast | loaders/glTFLoader.js:32 | With the separator present, joining all pieces but the last is the text before the last separator. |
| Text.NatToString | GLShader.js:172 | The template `${k}` of a line number is a non-empty string of decimal digits. |
| Text.NatToStringNoLeadingZero | GLShader.js:172 | The digits of `${k}` start with '0' only when k is 0. |
| Text.NatToStringValue | GLShader.js:172 | Reading the digits of `${k}` back as a decimal number gives k. |
| Text.NatToStringInjective | GLShader.js:172 | Distinct line numbers get distinct labels. |
| TextureUnits.Alloc | GLTextures.js:11-15 | An allocation returns the counter's value, increments it by exactly one and reports exactly when the unit exceeds `maxUnit`, returning the unit either way. |
| TextureUnits.ResetUnits | GLTextures.js:16-18 | `reset` zeroes the counter and keeps `maxUnit`. |
| TextureUnits.AllocManyCountsUp | GLTextures.js:11-15 | n consecutive allocations return `unitUsed, …, unitUsed + n − 1` and advance the counter by n. |
| TextureUnits.AllocAfterReset | GLTextures.js:16-18 | After `reset`, n allocations return 0, 1, …, n − 1. |
| TextureUnits.AllocBeforeInitReports | GLTextures.js:3 | Before `init`, `maxUnit` is −1 and every allocation is reported. |
| TextureUnits.Allocator.constructor | GLTextures.js:2-3 | The initial allocator state is `unitUsed = 0`, `maxUnit = −1`. |
| TextureUnits.Allocator.Init | GLTextures.js:8-10 | `init` sets `maxUnit` to the device limit and keeps the counter. |
| TextureUnits.Allocator.AllocUnit | GLTextures.js:11-15 | `allocUnit` returns unit and report flag and reaches the state `Alloc` gives. |
| TextureUnits.Allocator.Reset | GLTextures.js:16-18 | `reset` reaches the state `ResetUnits` gives. |
| States.ApplyWhenCached | GLStates.js:160-166 | A setter whose arguments equal the cached values issues no call and changes no field. |
| States.ApplyWhenDifferent | GLStates.js:167-173 | A setter whose arguments differ from the cache issues exactly its one command and then caches the new values. |
| States.CallIffChanged | GLStates.js:263-269 | A setter issues at most one call, one exactly when the cache differs, and the cache changes exactly then. |
| States.NothingElseChanges | GLStates.js:72-278 | A setter changes only its own cached field(s); every other cached value is unchanged. |
| States.SetTwice | GLStates.js:83-89 | Calling a setter twice with the same arguments: the second call does nothing and together they issue at most one call. |
| States.MultiComponent | GLStates.js:128-142 | Colour-clear, depth-range and polygon-offset setters issue one call when any component differs and then store all components. |
| States.ViewportArguments | GLStates.js:73-82 | `setViewport` caches `[x, y, w, h]` but issues `viewport(w, y, w, h)`. |
| States.CapabilitySetters | GLStates.js:160-166 | Depth test, cull face and scissor test issue `enable` for true and `disable` for false, on their own capability. |
| States.GLStates.constructor | GLStates.js:5-70 | The constructor's cache holds the documented defaults: viewport and scissor box `[0,0,300,150]`, depth test and cull off, front face CCW, both alignments 4, and the rest. |
| States.GLStates.SetViewport | GLStates.js:73-82 | The new cache and the appended calls are those of `Apply` on the old cache. |
| States.GLStates.SetArrayBufferBinding | GLStates.js:83-89 | The new cache and the appended calls are those of `Apply` on the old cache. |
| States.GLStates.SetCurrentProgram | GLStates.js:90-96 | The new cache and the appended calls are those of `Apply` on the old cache. |
| States.GLStates.SetVertexArrayBinding | GLStates.js:97-103 | The new cache and the appended calls are those of `Apply` on the old cache. |
| States.GLStates.SetRenderBufferBinding | GLStates.js:104-110 | The new cache and the appended calls are those of `Apply` on the old cache. |
| States.GLStates.SetFrameBufferBinding | GLStates.js:111-117 | The new cache and the appended calls are those of `Apply` on the old cache. |
| States.GLStates.SetActiveTexture | GLStates.js:118-124 | The new cache and the appended calls are those of `Apply` on the old cache. |
| States.GLStates.SetColorClearValue | GLStates.js:128-142 | The new cache and the appended calls are those of `Apply` on the old cache. |
| States.GLStates.SetDepthClearValue | GLStates.js:143-149 | The new cache and the appended calls are those of `Apply` on the old cache. |
| States.GLStates.SetStencilClearValue | GLStates.js:150-156 | The new cache and the appended calls are those of `Apply` on the old cache. |
| States.GLStates.SetDepthTest | GLStates.js:160-166 | The new cache and the appended calls are those of `Apply` on the old cache. |
| States.GLStates.SetDepthFunc | GLStates.js:167-173 | The new cache and the appended calls are those of `Apply` on the old cache. |
| States.GLStates.SetDepthRange | GLStates.js:174-181 | The new cache and the appended calls are those of `Apply` on the old cache. |
| States.GLStates.SetDepthWriteMask | GLStates.js:182-188 | The new cache and the appended calls are those of `Apply` on the old cache. |
| States.GLStates.SetColorWriteMask | GLStates.js:196-210 | The new cache and the appended calls are those of `Apply` on the old cache. |
| States.GLStates.SetScissorTest | GLStates.js:211-217 | The new cache and the appended calls are those of `Apply` on the old cache. |
| States.GLStates.SetScissorBox | GLStates.js:218-227 | The new cache and the appended calls are those of `Apply` on the old cache. |
| States.GLStates.SetUnpackAlignment | GLStates.js:228-234 | The new cache and the appended calls are those of `Apply` on the old cache. |
| States.GLStates.SetPackAlignment | GLStates.js:235-241 | The new cache and the appended calls are those of `Apply` on the old cache. |
| States.GLStates.SetCullFace | GLStates.js:249-255 | The new cache and the appended calls are those of `Apply` on the old cache. |
| States.GLStates.SetCullFaceMode | GLStates.js:256-262 | The new cache and the appended calls are those of `Apply` on the old cache. |
| States.GLStates.SetFrontFace | GLStates.js:263-269 | The new cache and the appended calls are those of `Apply` on the old cache. |
| States.GLStates.SetPolygonOffset | GLStates.js:270-277 | The new cache and the appended calls are those of `Apply` on the old cache. |
| Shader.AttributeTableEntries | GLShader.js:182-198 | The attribute table has a key for exactly the active names; each entry comes from the LAST active attribute of that name, with location = index = its loop index. |
| Shader.UniformTableEntries | GLShader.js:206-221 | The uniform table has a key for exactly the active names; each entry comes from the LAST active uniform of that name, with the location queried for it. |
| Shader.GetAttributeInfo | GLShader.js:182-198 | The loop builds exactly `AttributeTable` of the active attributes. |
| Shader.GetUniformInfo | GLShader.js:206-221 | The loop builds exactly `UniformTable` of the active uniforms and their locations. |
| Shader.NumberLines | GLShader.js:172 | Numbering keeps the number of lines. |
| Shader.FormatShaderCodeLines | GLShader.js:169-174 | The formatted code has as many lines as the input, and line k is `k:` followed by input line k, counting from 0. |
| Shader.SetUniformMissing | GLShader.js:42-43 | A name not in `uniformInfo` issues no call and allocates no unit. |
| Shader.SamplerProtocol | GLShader.js:100-138 | A sampler-typed uniform allocates exactly one unit `slot`, then activates `TEXTURE0 + slot`, binds `data` on the tag's target and sets the uniform to `slot`, reporting exactly when `slot > maxUnit`. |
| Shader.NonSamplerKeepsUnits | GLShader.js:49-98 | Non-sampler tags never touch the allocator and issue at most one call. |
| Shader.SetUniformNoDraws | GLShader.js:41-140 | `setUniform` never draws. |
| Shader.SamplerTargets | GLShader.js:100-138 | The bind target follows the tag group exactly: five 2D tags, three 3D, four cube-map and four 2D-array tags. |
| Shader.SharedEntryPoints | GLShader.js:73-98 | INT and BOOL share `uniform1i`, INT_VECn and BOOL_VECn share `uniformNiv`, and UINT tags issue nothing. |
| Shader.SetAttributeNoDraws | GLShader.js:146-162 | `setAttribute` never draws. |
| Shader.SetAttributeLocation | GLShader.js:146-162 | `setAttribute` is a no-op exactly when no active attribute has the name; otherwise it issues bindBuffer(ARRAY_BUFFER, buffer), enable and vertexAttribPointer with the cfg fields at the last index of that name, in that order. |
| Shader.CompileDiagnosticsIff | GLShader.js:22-30 | Compilation reports nothing exactly when both shaders compile and the program links; one diagnostic per failure, the shader ones carrying the line-numbered source. |
| Shader.CompileCallsShape | GLShader.js:12-39 | `compile` creates the program and both shaders with consecutive handles, draws nothing, issues 13 calls and makes the program current at call 11. |
| Shader.GLShader.constructor | GLShader.js:5-10 | The constructor stores the sources and runs `compile`. |
| Shader.GLShader.Compile | GLShader.js:12-39 | `compile` appends `CompileCalls` to the log, takes three fresh handles and stores the reflection tables and diagnostics. |
| Shader.GLShader.SetUniform | GLShader.js:41-140 | The appended calls, the allocator's new state and the found and report flags are those of `SetUniformEffect`. |
| Shader.GLShader.SetAttribute | GLShader.js:146-162 | Found exactly when the name is in `attributeInfo`; the appended calls are `SetAttributeCalls`. |
| Shader.GLShader.Use | GLShader.js:164-166 | `use` appends exactly `useProgram(glProg)`. |
| Math.IdentityEntries | math.js:52-59 | The identity has 1 at row = column (indices 0, 5, 10, 15) and 0 elsewhere. |
| Math.TransposeEntries | math.js:69-82 | Entry (r, c) of the transpose is entry (c, r) of the matrix. |
| Math.TransposeInvolution | math.js:69-82 | Transposing twice restores the matrix. |
| Math.TransposeFixesDiagonal | math.js:69-82 | Transposing never moves entries 0, 5, 10, 15. |
| Math.MulEntry | math.js:194-231 | Entry (r, c) of the product is Σk a(r, k)·b(k, c), i.e. `result[c·4+r] = Σk a[k·4+r]·b[c·4+k]`. |
| Math.MulIdentityLeft | math.js:194-231 | The identity is neutral on the left of the product. |
| Math.MulIdentityRight | math.js:194-231 | The identity is neutral on the right of the product. |
| Math.Composed | math.js:85-118 | After `compose`, indices 3, 7, 11 are 0, index 15 is 1 and 12..14 are the position. |
| Math.Translation | math.js:61-66 | A translation is the identity with 12, 13, 14 replaced. |
| Math.ComposeWithoutRotation | math.js:85-118 | With the identity quaternion, `compose` gives the diagonal scale matrix with the position in 12..14. |
| Math.ComposeDefaults | math.js:85-118 | With the default quaternion and unit scale the 3×3 block is the identity; with zero position too the whole matrix is. |
| Math.Inverse | math.js:160-162 | A zero determinant yields the all-zero matrix. |
| Math.AdjugateProducts | math.js:155-186 | The cofactor matrix `invert` computes (before scaling by `detInv`), multiplied by m on either side, is det(m) on the diagonal and 0 elsewhere, with det(m) the expansion of math.js:158. |
| Math.InverseScalesAdjugate | math.js:162-186 | For a nonzero determinant every entry `invert` writes is the cofactor times `1 / det`. |
| Math.InverseIsInverse | math.js:146-187 | For a nonzero determinant `invert` yields the two-sided inverse: Inverse(m) × m and m × Inverse(m) are the identity. |
| Math.InvertIdentity | math.js:146-187 | The identity has determinant 1 and inverts to itself. |
| Math.InvertTranslation | math.js:146-187 | Inverting a translation negates its offset. |
| Math.Matrix4.constructor | math.js:2-6 | A new matrix is the identity. |
| Math.Matrix4.CopyFrom | math.js:8-15 | `copyFrom` makes the entries the first 16 of its source. |
| Math.Matrix4.Set | math.js:35-49 | `set` stores argument nRC at index (C−1)·4+(R−1): the row-major arguments transposed into column-major storage. |
| Math.Matrix4.Identity | math.js:52-59 | `identity` makes the entries the identity. |
| Math.Matrix4.Translate | math.js:61-66 | `translate` writes exactly 12, 13, 14 and leaves the other 13 entries unchanged. |
| Math.Matrix4.Transpose | math.js:69-82 | The six in-place swaps give the transpose of the old matrix. |
| Math.Matrix4.Compose | math.js:85-118 | The entries become `Composed(position, quaternion, scale)`, which `Composed` and its lemmas characterise. |
| Math.Matrix4.Invert | math.js:146-187 | The entries become `Inverse` of the old matrix: all zero when the determinant is 0, and otherwise a matrix whose product with the old one, on either side, is the identity. |
| Math.Matrix4.Multiply | math.js:189-192 | `multiply(m)` sets the matrix to old(this) × m, even though the target is also the left operand. |
| Math.Matrix4.MultiplyMatrices | math.js:194-231 | The entries become the product of the operands' old values, even when the target aliases either operand. |
| Math.NewInverse | math.js:146-187 | A fresh matrix holding `Inverse(m)`, as `new Matrix4().copyFrom(m).invert()` builds it; for a nonzero determinant its product with m on either side is the identity. |
| Math.Quaternion.constructor | math.js:242-248 | A new quaternion is (0, 0, 0, 1). |
| Math.Bits32 | math.js:313-315 | The 32-bit two's-complement pattern of an integer, the identity on [0, 2^32). |
| Math.BitAndPredecessor | math.js:313-315 | For 0 < n < 2^w, `n & (n − 1)` is 0 exactly when n is a power of two. |
| Math.IsPowerOfTwoCorrect | math.js:313-315 | For 0 ≤ n < 2^32, `isPowerOfTwo(n)` holds exactly when n is a positive power of two; in particular `isPowerOfTwo(0)` is false. |
| Math.IsPowerOfTwoOfMinInt32 | math.js:313-315 | Under the 32-bit `&`, `isPowerOfTwo(−2^31)` is true. |
| Gltf.ItemSizeCounts | renderers/glTFRenderer.js:8-16 | `WEBGL_TYPE_SIZES` is defined exactly on the seven accessor types: SCALAR 1, VECn n and MATn n². |
| Gltf.JsSlice | renderers/glTFRenderer.js:116-119 | `slice(start, end)` within bounds is the subsequence [start, end); it never exceeds the data. |
| Gltf.ViewBytesRange | renderers/glTFRenderer.js:116-119 | A view inside its buffer uploads exactly the bytes [byteOffset, byteOffset + byteLength). |
| Gltf.ViewBytesAgree | renderers/glTFRenderer.js:116-119 | With `byteOffset` present, the as-written slice and the corrected one agree. |
| Gltf.ViewBytesAsWrittenDropsData | renderers/glTFRenderer.js:116-119 | A view without `byteOffset` uploads no bytes as written. |
| Gltf.DrawMode | renderers/glTFRenderer.js:184-189 | The primitive's mode, TRIANGLES when absent. |
| Gltf.DrawModeAsWrittenDrawsPoints | renderers/glTFRenderer.js:184-189 | As written, an absent mode draws POINTS; otherwise both agree. |
| Gltf.PrimitiveDraw | renderers/glTFRenderer.js:184-189 | A primitive's one call is a `drawElements` with its mode and the index accessor's count, componentType and byteOffset. |
| Gltf.MeshDraws | renderers/glTFRenderer.js:158-190 | A mesh issues exactly one draw per primitive, in primitive order. |
| Gltf.PrimitivesDraws | renderers/glTFRenderer.js:158-190 | A list of primitives issues exactly one draw per primitive, in order. |
| Gltf.KeepsTransitive | renderers/glTFRenderer.js:19-20 | Cache entries are never removed or replaced across any number of steps. |
| Gltf.UploadBufferMemo | renderers/glTFRenderer.js:104-128 | A first request creates exactly one buffer, caches it and uploads the view's bytes; a repeat returns the cached handle with no create or upload; entries are never removed. |
| Gltf.UploadBufferTwice | renderers/glTFRenderer.js:110-114 | Two requests for one view return the same handle and create at most one buffer. |
| Gltf.UploadBufferFresh | renderers/glTFRenderer.js:121-122 | Every cached handle stays below the next handle to be created. |
| Gltf.SamplerParams | renderers/glTFRenderer.js:74-79 | Filters default to NEAREST and wraps to REPEAT. |
| Gltf.UploadTextureMemo | renderers/glTFRenderer.js:69-103 | A first request creates and caches one texture; a hit returns the cached handle and issues nothing, or a re-bind in the older renderer. |
| Gltf.UploadTextureFresh | renderers/glTFRenderer.js:87-88 | Every cached handle stays below the next handle to be created. |
| Gltf.AttributeLayout | renderers/glTFRenderer.js:129-147 | The attribute's size follows `WEBGL_TYPE_SIZES` (0 when undefined), normalized is `!!normalized`, with the accessor's component type and the uploaded buffer. |
| Gltf.RotationIgnored | renderers/glTFRenderer.js:198-202 | A node's `rotation` never affects its local matrix. |
| Gltf.LocalMatrixWithoutRotation | renderers/glTFRenderer.js:198-202 | Without `matrix`, the local matrix is scale on the diagonal and translation in 12..14, with defaults [0,0,0] and [1,1,1]. |
| Gltf.NewLocalMatrix | renderers/glTFRenderer.js:195-202 | The local matrix is `matrix` when present, else compose(translation, ratation, scale) with defaults. |
| Gltf.WorldMatrix | renderers/glTFRenderer.js:196-204 | world = parent × local. |
| Gltf.Visits | renderers/glTFRenderer.js:192-211 | The pre-order reference traversal (own mesh when `mesh >= 0` with world = parent × local, then the children in array order with world as parent); its contract: every visited mesh exists. |
| Gltf.ChildVisits | renderers/glTFRenderer.js:208-210 | The visits of a children list in array order, each child with the node's world matrix as parent; every visited mesh exists. |
| Gltf.ChildrenRanked | renderers/glTFRenderer.js:208-210 | Every child index is a node that ranks below its parent. |
| Gltf.LeafVisits | renderers/glTFRenderer.js:204-206 | A childless node visits its own mesh exactly when `mesh >= 0`, with world = parent × local. |
| Gltf.SceneVisits | renderers/glTFRenderer.js:212-218 | The visits of the scene's roots in order, all with the same parent matrix; every visited mesh exists. |
| Gltf.NodeMeshes | renderers/glTFRenderer.js:206-210 | The mesh list a node renders, own mesh first; every listed mesh exists. |
| Gltf.ChildMeshes | renderers/glTFRenderer.js:208-210 | The mesh lists of the children in array order; every listed mesh exists. |
| Gltf.SceneMeshes | renderers/glTFRenderer.js:216-217 | The mesh lists of the roots in order; every listed mesh exists. |
| Gltf.NodeMeshesOfVisits | renderers/glTFRenderer.js:192-211 | The mesh list the renderer draws is the mesh column of the pre-order visits, position by position. |
| Gltf.ChildMeshesOfVisits | renderers/glTFRenderer.js:208-210 | The same agreement for a children list. |
| Gltf.MeshSeqDrawsAppend | renderers/glTFRenderer.js:206-210 | The draws of two mesh lists in sequence are the draws of each, concatenated. |
| Gltf.MeshPrimitivesOk | renderers/glTFRenderer.js:158-160 | Every primitive of a well-formed mesh refers to existing accessors and a material. |
| Gltf.PrimitiveDrawsStep | renderers/glTFRenderer.js:158-190 | One iteration of the primitive loop extends the draws by that primitive's draw. |
| Gltf.SceneDrawsStep | renderers/glTFRenderer.js:216-217 | One iteration of the roots loop extends the draws by that root's meshes. |
| Gltf.ChildDrawsStep | renderers/glTFRenderer.js:208-210 | One iteration of the children loop extends the draws by that child's meshes. |
| Gltf.NodeDrawsEnd | renderers/glTFRenderer.js:204-210 | A node's own draws followed by its children's are the draws of its mesh list. |
| GltfRenderer.GrowsTransitive | renderers/glTFRenderer.js:19-20 | Keeping cache entries and extending the log compose across steps. |
| GltfRenderer.AppendGrows | renderers/glTFRenderer.js:19-20 | Appending calls keeps the caches and adds only those calls' draws. |
| GltfRenderer.SetUniformStepDraws | renderers/glTFRenderer.js:155-156 | A uniform update keeps the caches and adds no draw. |
| GltfRenderer.BufferStepDraws | renderers/glTFRenderer.js:104-128 | `uploadBuffer` keeps every cache entry, only appends, draws nothing and leaves the allocator alone. |
| GltfRenderer.TextureStepDraws | renderers/glTFRenderer.js:69-103 | `uploadTexture` keeps every entry, caches the returned handle, draws nothing and leaves the allocator alone. |
| GltfRenderer.AttributeStepDraws | renderers/glTFRenderer.js:129-148 | `uploadAttribute` keeps every entry, only appends, draws nothing and leaves the allocator alone. |
| GltfRenderer.GeometryStepDraws | renderers/glTFRenderer.js:160-164 | The index buffer and the three attributes keep every entry and draw nothing. |
| GltfRenderer.MaterialStepBinds | renderers/glTFRenderer.js:165-182 | The material step resets the allocator, caches both textures and ends with both textures bound on the fixed units 0 and 1, drawing nothing. |
| GltfRenderer.PrimitiveStepDraws | renderers/glTFRenderer.js:158-190 | A primitive adds exactly its one draw, keeps the caches and leaves the allocator reset. |
| GltfRenderer.PrimitiveStepUnits | renderers/glTFRenderer.js:177-189 | A primitive's log ends with the two fixed-unit texture bindings followed by its draw. |
| GltfRenderer.MatrixUniformsCalls | renderers/glTFRenderer.js:153-156 | With mat4 uniforms, `renderMesh` first sets modelToView = cameraInverse × world and then modelToWorld = world. |
| GltfRenderer.MatrixUniformsDraws | renderers/glTFRenderer.js:153-156 | The two matrix uniforms keep the caches and draw nothing. |
| GltfRenderer.GLTFRenderer.constructor | renderers/glTFRenderer.js:25-29 | The caches start empty, and the shader is compiled with the reflection tables of its queries. |
| GltfRenderer.GLTFRenderer.SetCameraMatrix | renderers/glTFRenderer.js:56-60 | Stores the inverse of the camera matrix and leaves the argument unchanged. Sets `cameraWorldPosition` to entries 12..14. |
| GltfRenderer.GLTFRenderer.UploadBuffer | renderers/glTFRenderer.js:104-128 | The new state and handle are those of `BufferStep`. |
| GltfRenderer.GLTFRenderer.UploadTexture | renderers/glTFRenderer.js:69-103 | The new state and handle are those of `TextureStep`. |
| GltfRenderer.GLTFRenderer.UploadAttribute | renderers/glTFRenderer.js:129-148 | The new state is that of `AttributeStep`. |
| GltfRenderer.GLTFRenderer.UploadGeometry | renderers/glTFRenderer.js:160-164 | The new state is that of `GeometryStep`. |
| GltfRenderer.GLTFRenderer.BindMaterial | renderers/glTFRenderer.js:165-182 | The new state is that of `MaterialStep`. |
| GltfRenderer.GLTFRenderer.RenderPrimitive | renderers/glTFRenderer.js:159-189 | The new state is that of `PrimitiveStep`. |
| GltfRenderer.GLTFRenderer.ModelMatrices | renderers/glTFRenderer.js:153-156 | The new state is that of `MatrixUniforms`, and `world` is unchanged. |
| GltfRenderer.GLTFRenderer.RenderMesh | renderers/glTFRenderer.js:149-191 | The log starts with the two matrix uniforms and gains exactly the mesh's draws. Caches only grow. |
| GltfRenderer.GLTFRenderer.RenderNode | renderers/glTFRenderer.js:192-211 | The draws gained are those of the node's pre-order mesh list. Caches only grow. |
| GltfRenderer.GLTFRenderer.RenderNodeMesh | renderers/glTFRenderer.js:206 | The node's mesh is drawn exactly when `mesh >= 0`. |
| GltfRenderer.GLTFRenderer.RenderChildren | renderers/glTFRenderer.js:208-210 | The draws gained are those of the children's mesh lists in array order. |
| GltfRenderer.GLTFRenderer.RenderScene | renderers/glTFRenderer.js:212-218 | The first call is `useProgram`, and the draws gained are those of the scene's roots in order. |
| LegacyRenderer.ExtendsTransitive | glTFRenderer.js:16-17 | Keeping entries, extending the log and never switching programs compose across steps. |
| LegacyRenderer.AppendExtends | glTFRenderer.js:16-17 | Appending `useProgram`-free calls extends the state and adds only their draws. |
| LegacyRenderer.BufferStepDraws | glTFRenderer.js:163-187 | `uploadBuffer` keeps every entry, draws nothing and never switches programs. |
| LegacyRenderer.TextureStepDraws | glTFRenderer.js:130-162 | `uploadTexture` caches the returned handle, and a cache hit re-binds the cached texture and does nothing else. |
| LegacyRenderer.AttributeStepDraws | glTFRenderer.js:188-208 | After the buffer upload, `uploadAttribute` issues enable and vertexAttribPointer at the raw location with the accessor layout. |
| LegacyRenderer.GeometryStepDraws | glTFRenderer.js:220-224 | The index buffer and the three attributes keep every entry and draw nothing. |
| LegacyRenderer.MaterialStepBinds | glTFRenderer.js:225-239 | Both textures are cached, and the log ends with them bound on the fixed units 0 and 1 at the raw locations. |
| LegacyRenderer.PrimitiveStepDraws | glTFRenderer.js:218-247 | A primitive adds exactly its one draw and never switches programs. |
| LegacyRenderer.PrimitiveStepUnits | glTFRenderer.js:234-246 | A primitive's log ends with the fixed-unit bindings followed by its draw. |
| LegacyRenderer.MatrixCallsDraws | glTFRenderer.js:213-216 | The two matrix uniforms draw nothing and never switch programs. |
| LegacyRenderer.LegacyGLTFRenderer.constructor | glTFRenderer.js:23-30 | Compiles the shader, then enables DEPTH_TEST and CULL_FACE. The caches start empty. |
| LegacyRenderer.LegacyGLTFRenderer.CompileShader | glTFRenderer.js:32-68 | Appends `CompileCalls`, which end with the program current, and records the line-numbered diagnostics. |
| LegacyRenderer.LegacyGLTFRenderer.SetCameraMatrix | glTFRenderer.js:124-128 | Stores the inverse of the camera matrix and leaves the argument unchanged. Issues one `uniform3fv` of entries 12..14. |
| LegacyRenderer.LegacyGLTFRenderer.UploadTexture | glTFRenderer.js:130-162 | The new state and handle are those of `TextureStep`. |
| LegacyRenderer.LegacyGLTFRenderer.UploadBuffer | glTFRenderer.js:163-187 | The new state and handle are those of `BufferStep`. |
| LegacyRenderer.LegacyGLTFRenderer.UploadAttribute | glTFRenderer.js:188-208 | The new state is that of `AttributeStep`. |
| LegacyRenderer.LegacyGLTFRenderer.UploadGeometry | glTFRenderer.js:220-224 | The new state is that of `GeometryStep`. |
| LegacyRenderer.LegacyGLTFRenderer.BindMaterial | glTFRenderer.js:225-239 | The new state is that of `MaterialStep`. |
| LegacyRenderer.LegacyGLTFRenderer.RenderPrimitive | glTFRenderer.js:219-246 | The new state is that of `PrimitiveStep`. |
| LegacyRenderer.LegacyGLTFRenderer.ModelMatrices | glTFRenderer.js:213-216 | Appends exactly the two matrix uniforms, modelToView = cameraInverse × world. |
| LegacyRenderer.LegacyGLTFRenderer.RenderMesh | glTFRenderer.js:209-248 | The log starts with the matrix uniforms, gains exactly the mesh's draws and never switches programs. |
| LegacyRenderer.LegacyGLTFRenderer.RenderNode | glTFRenderer.js:249-268 | The draws gained are those of the node's pre-order mesh list. |
| LegacyRenderer.LegacyGLTFRenderer.RenderChildren | glTFRenderer.js:265-267 | The draws gained are those of the children's mesh lists in array order. |
| LegacyRenderer.LegacyGLTFRenderer.RenderScene | glTFRenderer.js:269-274 | The draws gained are those of the scene's roots in order, with no `useProgram` anywhere. |
| CubeRenderer.Floats | renderers/EquirectangularToCubeRenderer.js:75 | A vertex is 8 floats: position(3), normal(3), uv(2). |
| CubeRenderer.Flatten | renderers/EquirectangularToCubeRenderer.js:74-118 | The flat table holds 8 floats per vertex. |
| CubeRenderer.FlattenIndex | renderers/EquirectangularToCubeRenderer.js:74-118 | Float k of vertex i sits at flat index 8·i + k. |
| CubeRenderer.FacesOk | renderers/EquirectangularToCubeRenderer.js:76-117 | Each block of 6 vertices has all positions ±1, and its constant coordinate is the axis and sign of its shared unit normal. |
| CubeRenderer.CubeTableRow | renderers/EquirectangularToCubeRenderer.js:76-117 | Vertex 6·f + j of the table is vertex j of face f. |
| CubeRenderer.CubeSize | renderers/EquirectangularToCubeRenderer.js:63 | The table has 36 vertices and 288 floats, matching `drawArrays(TRIANGLES, 0, 36)` at stride 8·4 bytes. |
| CubeRenderer.CubeFaces | renderers/EquirectangularToCubeRenderer.js:76-117 | Every vertex of the table lies on the face its block names. |
| CubeRenderer.CubeVerticesOnSurface | renderers/EquirectangularToCubeRenderer.js:77-117 | In the flat array, every position component is ±1 and the normal is the block's axis-aligned unit vector. |
| CubeRenderer.InitCubeFlipY | renderers/EquirectangularToCubeRenderer.js:31-45 | UNPACK_FLIP_Y is true during the HDR upload and false once `initCube` is done. |
| CubeRenderer.InitCubeShape | renderers/EquirectangularToCubeRenderer.js:19-47 | `initCube` creates exactly the cube buffer and then the texture, draws nothing and uploads the cube table. |
| CubeRenderer.PositionConfig | renderers/EquirectangularToCubeRenderer.js:59-66 | The position attribute has stride 8·4 bytes, offset 0, on the cube buffer. |
| CubeRenderer.RenderCubeIgnoresUnitsInUse | renderers/EquirectangularToCubeRenderer.js:57 | Because of the reset, `renderCube` does the same whatever units were in use before. |
| CubeRenderer.RenderCubeDrawsOnce | renderers/EquirectangularToCubeRenderer.js:69 | `renderCube` issues exactly one `drawArrays(TRIANGLES, 0, 36)`. |
| CubeRenderer.RenderCubeBindsUnitZero | renderers/EquirectangularToCubeRenderer.js:55-70 | `equirectangularMap` always gets unit 0. The calls are use, position setup, the modelToView uniform, then TEXTURE0 active, the texture bound, the sampler set to 0, and the draw. |
| CubeRenderer.EquirectangularToCubeMapRenderer.constructor | renderers/EquirectangularToCubeRenderer.js:12-17 | Compiles the cube shader, then runs `initCube`. The cube buffer and texture are the next two handles. |
| CubeRenderer.EquirectangularToCubeMapRenderer.InitCube | renderers/EquirectangularToCubeRenderer.js:19-47 | Appends `InitCubeCalls` on two fresh handles. |
| CubeRenderer.EquirectangularToCubeMapRenderer.RenderCube | renderers/EquirectangularToCubeRenderer.js:55-70 | The appended calls and the allocator's new state are those of `RenderCubeEffect`. |
| GltfLoader.DirnameUndotted | loaders/glTFLoader.js:34 | With no `.` anywhere, `dirname` returns the URI unchanged. |
| GltfLoader.DirnameDotted | loaders/glTFLoader.js:32 | With a `.` anywhere, even in a directory name, and a `/`, `dirname` is the text before the last `/`. |
| GltfLoader.DirnameBareFile | loaders/glTFLoader.js:30-32 | A dotted URI without `/` has `dirname` `""`. |
| GltfLoader.DirnameDropsLastSegment | loaders/glTFLoader.js:32 | With a `.` the result is a prefix of the URI. With a `/` as well, its segments are the URI's without the last. |
| GltfLoader.ResourcePath | loaders/glTFLoader.js:6 | `resPath + '/' + uri`, with the `/` right after `resPath`. |
| GltfLoader.DefaultResourceIsSibling | loaders/glTFLoader.js:1-9 | With the default `resPath = dirname(uri)`, a resource of `dir/name.gltf` is looked up as `dir/` + resource URI. |
| GltfLoader.AcceptBuffer | loaders/glTFLoader.js:12 | A buffer is accepted exactly when its declared byteLength equals the fetched length, and its data is then the fetched bytes. Otherwise loading fails with "byteLength unmatch". |
| GltfLoader.AcceptBuffers | loaders/glTFLoader.js:8-16 | Loading succeeds exactly when every buffer passes the check. Each buffer then holds its own fetched bytes, in order. |

## Left out

- GLSL shader sources: all of them, and the GPU's rendering effects (pixels, mipmaps, half-float formats). Only the call log is observable.
- `perspective`, `rotate`, `Quaternion.setFromEuler`, `normalize`, `toRad`/`toDeg`: trigonometric and square-root maths, which exact reals cannot express. `setProjection` in both renderers and the cube renderer is left out for this reason.
- Floating point: matrices use exact reals; `det === 0` is exact equality, and the cube table's `Float32Array` rounding is not modelled (its entries are all 0, ±1 and small dyadic fractions).
- `fetch`, `loadImg`, `i.json()` and the promise chain of `loadGLTF`. The fetched bytes are a parameter of `AcceptBuffers`. `Promise.all` rejects with the first failure in time, not in order; the model gives the error string only.
- `GLContext.gl` is replaced by an explicit `GL.Device`. Device queries (compile and link status, info logs, active uniforms and attributes, uniform locations, `getExtension`, `MAX_TEXTURE_IMAGE_UNITS`) are parameters. `OES_texture_half_float` is assumed present, with `HALF_FLOAT_OES` as a constant.
- GLShader constructor: its unused `states` argument is dropped.
- The older renderer's `initUniformLocation` is a parameter of locations. Its `setAmbientLight`, `setDirectionalLight`, `setViewport` and `setMetallicRoughness` are left out, and so are the same light setters of the newer renderer. They are straight-line forwarding calls and nothing in the core depends on them.
- The other renderers (SkyBox, irradiance, Background and the root EquirectangularToCubeMapRenderer.js): straight-line call sequences with no decisions of their own.
- GltfRenderer.GLTFRenderer.RenderMesh, GltfRenderer.GLTFRenderer.RenderNode, GltfRenderer.GLTFRenderer.RenderChildren and GltfRenderer.GLTFRenderer.RenderScene: each states its draws, its cache growth and a log prefix. It does not state the complete log, whose non-draw calls depend on the cache contents at each step. Each primitive's complete calls are stated by `PrimitiveStep` and its lemmas. The same holds for the four `LegacyRenderer.LegacyGLTFRenderer` render methods.
- GltfRenderer.GLTFRenderer.RenderNode: the matrix each mesh is drawn with is stated by `Gltf.WorldMatrix` and `Gltf.Visits`, not by the method.
- GltfRenderer.GLTFRenderer.UploadGeometry, BindMaterial, RenderPrimitive, ModelMatrices, RenderNodeMesh and RenderChildren are named stretches of `renderMesh`/`renderNode` lines. `Gltf.NewLocalMatrix`, `Gltf.WorldMatrix` and `Math.NewInverse` are likewise the source's inline `new Matrix4()` builds. They are not separate functions in the source.
- Gltf.UploadBufferStep: a view without `byteOffset` uploads the corrected `Gltf.ViewBytes`, its `byteLength` bytes from offset 0. The source uploads an empty slice there. The two agree when `byteOffset` is present (`Gltf.ViewBytesAgree`).
- Gltf.UploadBufferMemo: a view without `byteOffset` uploads the corrected `Gltf.ViewBytes`, its `byteLength` bytes from offset 0. The source uploads an empty slice there. The two agree when `byteOffset` is present (`Gltf.ViewBytesAgree`).
- GltfRenderer.GLTFRenderer.UploadBuffer: a view without `byteOffset` uploads the corrected `Gltf.ViewBytes`, its `byteLength` bytes from offset 0. The source uploads an empty slice there. The two agree when `byteOffset` is present (`Gltf.ViewBytesAgree`).
- GltfRenderer.GLTFRenderer.UploadAttribute: a view without `byteOffset` uploads the corrected `Gltf.ViewBytes`, its `byteLength` bytes from offset 0. The source uploads an empty slice there. The two agree when `byteOffset` is present (`Gltf.ViewBytesAgree`).
- GltfRenderer.GLTFRenderer.UploadGeometry: a view without `byteOffset` uploads the corrected `Gltf.ViewBytes`, its `byteLength` bytes from offset 0. The source uploads an empty slice there. The two agree when `byteOffset` is present (`Gltf.ViewBytesAgree`).
- LegacyRenderer.LegacyGLTFRenderer.UploadBuffer: a view without `byteOffset` uploads the corrected `Gltf.ViewBytes`, its `byteLength` bytes from offset 0. The source uploads an empty slice there. The two agree when `byteOffset` is present (`Gltf.ViewBytesAgree`).
- LegacyRenderer.LegacyGLTFRenderer.UploadAttribute: a view without `byteOffset` uploads the corrected `Gltf.ViewBytes`, its `byteLength` bytes from offset 0. The source uploads an empty slice there. The two agree when `byteOffset` is present (`Gltf.ViewBytesAgree`).
- LegacyRenderer.LegacyGLTFRenderer.UploadGeometry: a view without `byteOffset` uploads the corrected `Gltf.ViewBytes`, its `byteLength` bytes from offset 0. The source uploads an empty slice there. The two agree when `byteOffset` is present (`Gltf.ViewBytesAgree`).
- Gltf.PrimitiveDraw: a primitive without `mode` draws with the corrected `Gltf.DrawMode`, TRIANGLES. The source passes `undefined`, which WebGL reads as POINTS. The two agree when `mode` is present (`Gltf.DrawModeAsWrittenDrawsPoints`).
- Gltf.PrimitiveDrawsStep: a primitive without `mode` draws with the corrected `Gltf.DrawMode`, TRIANGLES. The source passes `undefined`, which WebGL reads as POINTS. The two agree when `mode` is present (`Gltf.DrawModeAsWrittenDrawsPoints`).
- Gltf.MeshDraws: a primitive without `mode` draws with the corrected `Gltf.DrawMode`, TRIANGLES. The source passes `undefined`, which WebGL reads as POINTS. The two agree when `mode` is present (`Gltf.DrawModeAsWrittenDrawsPoints`).
- Gltf.PrimitivesDraws: a primitive without `mode` draws with the corrected `Gltf.DrawMode`, TRIANGLES. The source passes `undefined`, which WebGL reads as POINTS. The two agree when `mode` is present (`Gltf.DrawModeAsWrittenDrawsPoints`).
- GltfRenderer.PrimitiveStepDraws: a primitive without `mode` draws with the corrected `Gltf.DrawMode`, TRIANGLES. The source passes `undefined`, which WebGL reads as POINTS. The two agree when `mode` is present (`Gltf.DrawModeAsWrittenDrawsPoints`).
- GltfRenderer.PrimitiveStepUnits: a primitive without `mode` draws with the corrected `Gltf.DrawMode`, TRIANGLES. The source passes `undefined`, which WebGL reads as POINTS. The two agree when `mode` is present (`Gltf.DrawModeAsWrittenDrawsPoints`).
- LegacyRenderer.PrimitiveStepDraws: a primitive without `mode` draws with the corrected `Gltf.DrawMode`, TRIANGLES. The source passes `undefined`, which WebGL reads as POINTS. The two agree when `mode` is present (`Gltf.DrawModeAsWrittenDrawsPoints`).
- LegacyRenderer.PrimitiveStepUnits: a primitive without `mode` draws with the corrected `Gltf.DrawMode`, TRIANGLES. The source passes `undefined`, which WebGL reads as POINTS. The two agree when `mode` is present (`Gltf.DrawModeAsWrittenDrawsPoints`).
- GltfRenderer.GLTFRenderer.RenderPrimitive: the uploads and draws it states use the corrected `Gltf.ViewBytes` and `Gltf.DrawMode`. Without `byteOffset` the source uploads no bytes, and without `mode` it draws POINTS. With both present they are the source's own.
- GltfRenderer.GLTFRenderer.RenderMesh: the uploads and draws it states use the corrected `Gltf.ViewBytes` and `Gltf.DrawMode`. Without `byteOffset` the source uploads no bytes, and without `mode` it draws POINTS. With both present they are the source's own.
- GltfRenderer.GLTFRenderer.RenderNode: the uploads and draws it states use the corrected `Gltf.ViewBytes` and `Gltf.DrawMode`. Without `byteOffset` the source uploads no bytes, and without `mode` it draws POINTS. With both present they are the source's own.
- GltfRenderer.GLTFRenderer.RenderNodeMesh: the uploads and draws it states use the corrected `Gltf.ViewBytes` and `Gltf.DrawMode`. Without `byteOffset` the source uploads no bytes, and without `mode` it draws POINTS. With both present they are the source's own.
- GltfRenderer.GLTFRenderer.RenderChildren: the uploads and draws it states use the corrected `Gltf.ViewBytes` and `Gltf.DrawMode`. Without `byteOffset` the source uploads no bytes, and without `mode` it draws POINTS. With both present they are the source's own.
- GltfRenderer.GLTFRenderer.RenderScene: the uploads and draws it states use the corrected `Gltf.ViewBytes` and `Gltf.DrawMode`. Without `byteOffset` the source uploads no bytes, and without `mode` it draws POINTS. With both present they are the source's own.
- LegacyRenderer.LegacyGLTFRenderer.RenderPrimitive: the uploads and draws it states use the corrected `Gltf.ViewBytes` and `Gltf.DrawMode`. Without `byteOffset` the source uploads no bytes, and without `mode` it draws POINTS. With both present they are the source's own.
- LegacyRenderer.LegacyGLTFRenderer.RenderMesh: the uploads and draws it states use the corrected `Gltf.ViewBytes` and `Gltf.DrawMode`. Without `byteOffset` the source uploads no bytes, and without `mode` it draws POINTS. With both present they are the source's own.
- LegacyRenderer.LegacyGLTFRenderer.RenderNode: the uploads and draws it states use the corrected `Gltf.ViewBytes` and `Gltf.DrawMode`. Without `byteOffset` the source uploads no bytes, and without `mode` it draws POINTS. With both present they are the source's own.
- LegacyRenderer.LegacyGLTFRenderer.RenderChildren: the uploads and draws it states use the corrected `Gltf.ViewBytes` and `Gltf.DrawMode`. Without `byteOffset` the source uploads no bytes, and without `mode` it draws POINTS. With both present they are the source's own.
- LegacyRenderer.LegacyGLTFRenderer.RenderScene: the uploads and draws it states use the corrected `Gltf.ViewBytes` and `Gltf.DrawMode`. Without `byteOffset` the source uploads no bytes, and without `mode` it draws POINTS. With both present they are the source's own.
- States.GLStates.SetVertexArrayBinding: the model logs a `VertexArrayBinding` device call. The source's `gl.vertexArrayBinding(vao)` (GLStates.js:101) is not a WebGL method. So in a browser the setter updates the cache and then throws a TypeError without reaching the device. No code in the core calls this setter.
- GltfRenderer.GLTFRenderer.ModelMatrices, RenderMesh, RenderNode, RenderNodeMesh, RenderChildren and RenderScene require `cameraInverse != null`, and so do the same five `LegacyRenderer.LegacyGLTFRenderer` methods. Before the first `setCameraMatrix` the source multiplies by an undefined matrix (renderers/glTFRenderer.js:154, glTFRenderer.js:214) and throws a TypeError. That crash is not modelled.
- GltfRenderer.HasMaterialUniforms: the newer renderer's material and render members require the shader to have active `baseColorTexture` and `metallicRoughnessTexture` uniforms. Without them the source reads `.location` of undefined (renderers/glTFRenderer.js:179, 182) and throws a TypeError. That crash is not modelled.
- Shader.GLShader.SetUniform and Shader.GLShader.SetAttribute: the reflection tables are maps, so a name that is not an active uniform or attribute is not found. The source's tables are plain objects. A name found only on the object prototype, such as `constructor` or `toString`, passes the `!info` test there and goes on with an undefined type and location.
- Callers must give in-range indices and a well-formed, acyclic document. The source crashes or recurses forever otherwise.
- GltfLoader.DirnameDropsLastSegment: the "one segment fewer" half is stated only for a URI that contains a `/`. Without one, `""` still splits into one segment.
- CubeRenderer.Floats: the table is grouped into 8-float vertex records and flattened; the model states the flat layout through `Flatten`, not the `Float32Array` object.
- The static allocator fields are one shared `TextureUnits.Allocator` object. Aliasing between the renderer's matrices and the camera matrix is not modelled beyond `multiplyMatrices`.

## Findings

| source | as written | input that shows it | evidently intended | confidence | as-written member | corrected member |
|---|---|---|---|---|---|---|
| renderers/glTFRenderer.js:116-119 | `data.slice(byteOffset, byteOffset + byteLength)` with `byteOffset` absent is `slice(undefined, NaN)`, which is empty | a 4-byte buffer with a view of byteLength 4 and no byteOffset uploads 0 bytes | absent `byteOffset` defaults to 0 (the `byteOffset` property of a buffer view, section 5.11 of the glTF 2.0 specification), so the view's 4 bytes are uploaded | not executed | Gltf.ViewBytesAsWrittenDropsData | Gltf.ViewBytesRange |
| renderers/glTFRenderer.js:184-189 | `drawElements(primitiveDef.mode, …)` with `mode` absent passes undefined, which WebGL converts to 0, POINTS | a primitive without `mode` | absent `mode` defaults to 4, TRIANGLES (the `mode` property of a mesh primitive, section 5.24 of the glTF 2.0 specification) | not executed | Gltf.DrawModeAsWrittenDrawsPoints | Gltf.DrawMode |
| glTFRenderer.js:175-178 | the older renderer's `uploadBuffer` has the same `slice(byteOffset, byteOffset + byteLength)` | as for renderers/glTFRenderer.js:116-119 | as for renderers/glTFRenderer.js:116-119 | not executed | Gltf.ViewBytesAsWrittenDropsData | Gltf.ViewBytesRange |
| glTFRenderer.js:241-246 | the older renderer's `drawElements(primitiveDef.mode, …)` has the same absent-`mode` slip | a primitive without `mode` | as for renderers/glTFRenderer.js:184-189 | not executed | Gltf.DrawModeAsWrittenDrawsPoints | Gltf.DrawMode |
