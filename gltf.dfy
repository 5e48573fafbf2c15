/** The parts of a glTF 2.0 document the renderers read, and what both
    renderer files (renderers/glTFRenderer.js and the older glTFRenderer.js)
    share: the component-count table, the byte range of a buffer view, the
    memoising uploads, the local matrix of a node and the pre-order traversal
    of the node graph. Optional properties are `Option`s; a property whose
    absence makes the source throw is a plain field, and the index references
    it follows are required to be in range (`WellFormed`). */
module Gltf {
  import GL
  import Math
  import Shader
  import opened Wrappers

  datatype Buffer = Buffer(data: seq<int>)
  datatype BufferView = BufferView(buffer: nat, byteOffset: Option<int>, byteLength: int, byteStride: Option<int>, target: Option<int>)
  datatype Accessor = Accessor(bufferView: nat, accessorOffset: Option<int>, componentType: int, normalized: Option<bool>, count: int, accessorType: string)
  /** A primitive with its three attributes POSITION, TEXCOORD_0 and NORMAL. */
  datatype Primitive = Primitive(indices: nat, position: nat, texcoord0: nat, normal: nat, material: nat, mode: Option<int>)
  /** The two texture indices of `pbrMetallicRoughness`. */
  datatype Material = Material(baseColorTexture: nat, metallicRoughnessTexture: nat)
  datatype Texture = Texture(source: nat, sampler: nat)
  datatype Sampler = Sampler(magFilter: Option<int>, minFilter: Option<int>, wrapS: Option<int>, wrapT: Option<int>)
  /** `el` is the decoded image element handed to `texImage2D`. */
  datatype Image = Image(el: GL.Value)
  /** A node. `ratation` is the misspelt key the renderers read; `rotation`
      is the key the glTF format defines. */
  datatype Node = Node(matrix: Option<seq<real>>, translation: Option<seq<real>>, rotation: Option<seq<real>>,
                       ratation: Option<seq<real>>, scale: Option<seq<real>>, mesh: Option<int>, children: Option<seq<nat>>)
  datatype Mesh = Mesh(primitives: seq<Primitive>)
  datatype Scene = Scene(nodes: seq<nat>)
  datatype Document = Document(buffers: seq<Buffer>, bufferViews: seq<BufferView>, accessors: seq<Accessor>,
                               meshes: seq<Mesh>, materials: seq<Material>, textures: seq<Texture>,
                               samplers: seq<Sampler>, images: seq<Image>, nodes: seq<Node>, scenes: seq<Scene>)

  // ---------------------------------------------------------------------
  // Well-formedness: every reference the renderers follow resolves

  predicate PrimitiveOk(doc: Document, p: Primitive) {
    p.indices < |doc.accessors| && p.position < |doc.accessors| && p.texcoord0 < |doc.accessors| &&
    p.normal < |doc.accessors| && p.material < |doc.materials|
  }

  /** `mesh >= 0` is the test the renderers use; a negative or absent mesh is
      not rendered. */
  predicate HasMesh(n: Node) {
    n.mesh.Some? && n.mesh.value >= 0
  }

  predicate NodeOk(doc: Document, n: Node) {
    (n.matrix.Some? ==> |n.matrix.value| >= 16) &&
    (n.translation.Some? ==> |n.translation.value| >= 3) &&
    (n.ratation.Some? ==> |n.ratation.value| >= 4) &&
    (n.scale.Some? ==> |n.scale.value| >= 3) &&
    (HasMesh(n) ==> n.mesh.value < |doc.meshes|) &&
    (n.children.Some? ==> forall k :: 0 <= k < |n.children.value| ==> n.children.value[k] < |doc.nodes|)
  }

  predicate WellFormed(doc: Document) {
    (forall i :: 0 <= i < |doc.bufferViews| ==> doc.bufferViews[i].buffer < |doc.buffers|) &&
    (forall i :: 0 <= i < |doc.accessors| ==> doc.accessors[i].bufferView < |doc.bufferViews|) &&
    (forall i, j :: 0 <= i < |doc.meshes| && 0 <= j < |doc.meshes[i].primitives| ==> PrimitiveOk(doc, doc.meshes[i].primitives[j])) &&
    (forall i :: 0 <= i < |doc.materials| ==>
       doc.materials[i].baseColorTexture < |doc.textures| && doc.materials[i].metallicRoughnessTexture < |doc.textures|) &&
    (forall i :: 0 <= i < |doc.textures| ==> doc.textures[i].source < |doc.images| && doc.textures[i].sampler < |doc.samplers|) &&
    (forall i :: 0 <= i < |doc.nodes| ==> NodeOk(doc, doc.nodes[i])) &&
    (forall i, k :: 0 <= i < |doc.scenes| && 0 <= k < |doc.scenes[i].nodes| ==> doc.scenes[i].nodes[k] < |doc.nodes|)
  }

  /** The node graph has no cycle: every child ranks below its parent. The
      renderers recurse without a visited set, so a cycle never terminates. */
  predicate Ranked(doc: Document, rank: seq<nat>) {
    |rank| == |doc.nodes| &&
    forall i, k :: 0 <= i < |doc.nodes| && doc.nodes[i].children.Some? && 0 <= k < |doc.nodes[i].children.value| ==>
      doc.nodes[i].children.value[k] < |doc.nodes| && rank[doc.nodes[i].children.value[k]] < rank[i]
  }

  // ---------------------------------------------------------------------
  // WEBGL_TYPE_SIZES

  /** Components per element for each accessor type (section 3.6.2,
      Accessors, of the glTF 2.0 specification); any other key is undefined. */
  function ItemSize(accessorType: string): Option<int>
  {
    if accessorType == "SCALAR" then Some(1)
    else if accessorType == "VEC2" then Some(2)
    else if accessorType == "VEC3" then Some(3)
    else if accessorType == "VEC4" then Some(4)
    else if accessorType == "MAT2" then Some(4)
    else if accessorType == "MAT3" then Some(9)
    else if accessorType == "MAT4" then Some(16)
    else None
  }

  /** VECn has n components and MATn has n × n; only the seven glTF types
      are in the table. */
  lemma ItemSizeCounts(accessorType: string)
    ensures ItemSize(accessorType).Some? <==> accessorType in {"SCALAR", "VEC2", "VEC3", "VEC4", "MAT2", "MAT3", "MAT4"}
    ensures forall n :: 2 <= n <= 4 ==>
      ItemSize("VEC" + [Digit(n)]) == Some(n) && ItemSize("MAT" + [Digit(n)]) == Some(n * n)
    ensures ItemSize("SCALAR") == Some(1)
  {
    forall n | 2 <= n <= 4
      ensures ItemSize("VEC" + [Digit(n)]) == Some(n) && ItemSize("MAT" + [Digit(n)]) == Some(n * n)
    {
      if n == 2 {
        assert "VEC" + [Digit(n)] == "VEC2" && "MAT" + [Digit(n)] == "MAT2";
      } else if n == 3 {
        assert "VEC" + [Digit(n)] == "VEC3" && "MAT" + [Digit(n)] == "MAT3";
      } else {
        assert "VEC" + [Digit(n)] == "VEC4" && "MAT" + [Digit(n)] == "MAT4";
      }
    }
  }

  function Digit(n: int): char
    requires 2 <= n <= 4
  {
    if n == 2 then '2' else if n == 3 then '3' else '4'
  }

  // ---------------------------------------------------------------------
  // Byte ranges

  /** `Array.prototype.slice(start, end)` on integer arguments: negative
      positions count from the end, both are clamped to the length. */
  function JsSlice(data: seq<int>, start: int, end: int): (r: seq<int>)
    ensures 0 <= start <= end <= |data| ==> r == data[start..end]
    ensures |r| <= |data|
  {
    var len := |data|;
    var from := if start < 0 then (if len + start < 0 then 0 else len + start) else (if start < len then start else len);
    var to := if end < 0 then (if len + end < 0 then 0 else len + end) else (if end < len then end else len);
    if from < to then data[from..to] else []
  }

  /** The bytes `uploadBuffer` sends as written: an absent `byteOffset` makes
      the call `slice(undefined, NaN)`, which is `slice(0, 0)`. */
  function ViewBytesAsWritten(doc: Document, v: nat): seq<int>
    requires v < |doc.bufferViews| && doc.bufferViews[v].buffer < |doc.buffers|
  {
    var view := doc.bufferViews[v];
    var data := doc.buffers[view.buffer].data;
    match view.byteOffset
    case None => JsSlice(data, 0, 0)
    case Some(off) => JsSlice(data, off, off + view.byteLength)
  }

  /** The bytes of a buffer view, with the glTF default 0 for an absent
      `byteOffset`. */
  function ViewBytes(doc: Document, v: nat): seq<int>
    requires v < |doc.bufferViews| && doc.bufferViews[v].buffer < |doc.buffers|
  {
    var view := doc.bufferViews[v];
    var off := view.byteOffset.GetOr(0);
    JsSlice(doc.buffers[view.buffer].data, off, off + view.byteLength)
  }

  /** A view that lies inside its buffer uploads exactly the bytes
      [byteOffset, byteOffset + byteLength). */
  lemma ViewBytesRange(doc: Document, v: nat)
    requires v < |doc.bufferViews| && doc.bufferViews[v].buffer < |doc.buffers|
    requires var view := doc.bufferViews[v]; var off := view.byteOffset.GetOr(0);
      0 <= off && 0 <= view.byteLength && off + view.byteLength <= |doc.buffers[view.buffer].data|
    ensures var view := doc.bufferViews[v]; var off := view.byteOffset.GetOr(0);
      ViewBytes(doc, v) == doc.buffers[view.buffer].data[off..off + view.byteLength] &&
      |ViewBytes(doc, v)| == view.byteLength
  {
  }

  /** The two agree whenever `byteOffset` is present. */
  lemma ViewBytesAgree(doc: Document, v: nat)
    requires v < |doc.bufferViews| && doc.bufferViews[v].buffer < |doc.buffers|
    requires doc.bufferViews[v].byteOffset.Some?
    ensures ViewBytesAsWritten(doc, v) == ViewBytes(doc, v)
  {
  }

  /** A four-byte view without `byteOffset` uploads nothing as written. */
  lemma ViewBytesAsWrittenDropsData()
    ensures var doc := Document([Buffer([1, 2, 3, 4])], [BufferView(0, None, 4, None, Some(GL.ARRAY_BUFFER))],
                                [], [], [], [], [], [], [], []);
      ViewBytesAsWritten(doc, 0) == [] && ViewBytes(doc, 0) == [1, 2, 3, 4]
  {
  }

  // ---------------------------------------------------------------------
  // Draw mode

  /** `drawElements(primitiveDef.mode, …)` as written: an absent mode is
      converted to 0, POINTS. */
  function DrawModeAsWritten(mode: Option<int>): int
  {
    GL.ArgOr0(mode)
  }

  /** The mode with the glTF default 4, TRIANGLES, for an absent `mode`. */
  function DrawMode(mode: Option<int>): (r: int)
    ensures mode.Some? ==> r == mode.value
    ensures mode.None? ==> r == GL.TRIANGLES
  {
    mode.GetOr(GL.TRIANGLES)
  }

  /** The two differ only for an absent mode, which draws points as written. */
  lemma DrawModeAsWrittenDrawsPoints(mode: Option<int>)
    ensures mode.Some? ==> DrawModeAsWritten(mode) == DrawMode(mode)
    ensures mode.None? ==> DrawModeAsWritten(mode) == GL.POINTS && DrawMode(mode) == GL.TRIANGLES
  {
  }

  /** The one draw a primitive issues: its mode and its index accessor's
      count, componentType and byteOffset. */
  function PrimitiveDraw(doc: Document, p: Primitive): (c: GL.GLCall)
    requires p.indices < |doc.accessors|
    ensures c.DrawElements?
  {
    var idx := doc.accessors[p.indices];
    GL.DrawElements(DrawMode(p.mode), idx.count, idx.componentType, GL.ArgOr0(idx.accessorOffset))
  }

  /** The draws of a mesh, one per primitive and in order. */
  function MeshDraws(doc: Document, m: nat): (d: seq<GL.GLCall>)
    requires WellFormed(doc) && m < |doc.meshes|
    ensures var ps := doc.meshes[m].primitives;
      |d| == |ps| && forall i :: 0 <= i < |ps| ==> d[i] == PrimitiveDraw(doc, ps[i])
  {
    PrimitivesDraws(doc, doc.meshes[m].primitives)
  }

  /** The draws of a run of primitives, in order. */
  function PrimitivesDraws(doc: Document, ps: seq<Primitive>): (d: seq<GL.GLCall>)
    requires forall i :: 0 <= i < |ps| ==> ps[i].indices < |doc.accessors|
    ensures |d| == |ps| && forall i :: 0 <= i < |ps| ==> d[i] == PrimitiveDraw(doc, ps[i])
  {
    if ps == [] then []
    else PrimitivesDraws(doc, ps[..|ps| - 1]) + [PrimitiveDraw(doc, ps[|ps| - 1])]
  }

  // ---------------------------------------------------------------------
  // Memoising uploads

  /** The two Map caches and the device's handle counter. */
  datatype Caches = Caches(buffers: map<nat, GL.Handle>, textures: map<nat, GL.Handle>, next: GL.Handle)

  /** Every cached handle was handed out before `next`, so a new handle is
      never one already cached. */
  predicate Fresh(c: Caches) {
    (forall k :: k in c.buffers ==> c.buffers[k] < c.next) &&
    (forall k :: k in c.textures ==> c.textures[k] < c.next)
  }

  /** `later` keeps every entry of `earlier`. */
  predicate Keeps(earlier: Caches, later: Caches) {
    (forall k :: k in earlier.buffers ==> k in later.buffers && later.buffers[k] == earlier.buffers[k]) &&
    (forall k :: k in earlier.textures ==> k in later.textures && later.textures[k] == earlier.textures[k]) &&
    earlier.next <= later.next
  }

  lemma KeepsTransitive(a: Caches, b: Caches, c: Caches)
    requires Keeps(a, b) && Keeps(b, c)
    ensures Keeps(a, c)
  {
  }

  /** An upload: the caches afterwards, the device calls, and the handle. */
  datatype Upload = Upload(after: Caches, calls: seq<GL.GLCall>, handle: GL.Handle)

  /** `uploadBuffer(bufferViewIndex)` (identical in both renderers): a hit
      re-binds the cached buffer on the view's target; a miss creates one
      buffer, caches it, binds it and uploads the view's bytes. */
  function UploadBufferStep(doc: Document, c: Caches, v: nat): Upload
    requires v < |doc.bufferViews| && doc.bufferViews[v].buffer < |doc.buffers|
  {
    var target := GL.ArgOr0(doc.bufferViews[v].target);
    if v in c.buffers then
      Upload(c, [GL.BindBuffer(target, GL.Obj(c.buffers[v]))], c.buffers[v])
    else
      var h := c.next;
      Upload(c.(buffers := c.buffers[v := h], next := h + 1),
             [GL.Create(GL.BufferObject, h), GL.BindBuffer(target, GL.Obj(h)),
              GL.BufferBytes(target, ViewBytes(doc, v), GL.STATIC_DRAW)], h)
  }

  /** The first request creates exactly one buffer, caches it and uploads the
      view's bytes to it; a repeat request creates and uploads nothing and
      returns the cached handle. No entry is ever removed. */
  lemma UploadBufferMemo(doc: Document, c: Caches, v: nat)
    requires v < |doc.bufferViews| && doc.bufferViews[v].buffer < |doc.buffers|
    ensures var u := UploadBufferStep(doc, c, v);
      Keeps(c, u.after) && v in u.after.buffers && u.after.buffers[v] == u.handle &&
      u.after.textures == c.textures && GL.Draws(u.calls) == [] &&
      (v !in c.buffers ==>
         GL.Created(u.calls) == [c.next] && u.handle == c.next && u.after.next == c.next + 1 &&
         u.after.buffers == c.buffers[v := c.next] &&
         GL.BufferBytes(GL.ArgOr0(doc.bufferViews[v].target), ViewBytes(doc, v), GL.STATIC_DRAW) in u.calls) &&
      (v in c.buffers ==>
         GL.Created(u.calls) == [] && u.after == c && u.handle == c.buffers[v] &&
         forall i :: 0 <= i < |u.calls| ==> !u.calls[i].BufferBytes?)
  {
    var u := UploadBufferStep(doc, c, v);
    if v !in c.buffers {
      assert u.calls == [u.calls[0]] + [u.calls[1], u.calls[2]];
      GL.CreatedAppend([u.calls[0]], [u.calls[1], u.calls[2]]);
      GL.CreatedNone([u.calls[1], u.calls[2]]);
    }
    GL.DrawsNone(u.calls);
  }

  /** Requesting the same view twice creates one buffer and returns the same
      handle both times. */
  lemma UploadBufferTwice(doc: Document, c: Caches, v: nat)
    requires v < |doc.bufferViews| && doc.bufferViews[v].buffer < |doc.buffers|
    ensures var first := UploadBufferStep(doc, c, v);
      var second := UploadBufferStep(doc, first.after, v);
      second.handle == first.handle && second.after == first.after &&
      GL.Created(first.calls + second.calls) == GL.Created(first.calls) && |GL.Created(first.calls)| <= 1
  {
    var first := UploadBufferStep(doc, c, v);
    UploadBufferMemo(doc, c, v);
    UploadBufferMemo(doc, first.after, v);
    GL.CreatedAppend(first.calls, UploadBufferStep(doc, first.after, v).calls);
  }

  /** A miss keeps every cached handle below the counter. */
  lemma UploadBufferFresh(doc: Document, c: Caches, v: nat)
    requires v < |doc.bufferViews| && doc.bufferViews[v].buffer < |doc.buffers|
    requires Fresh(c)
    ensures Fresh(UploadBufferStep(doc, c, v).after)
  {
  }

  /** The sampler settings `uploadTexture` applies: NEAREST filters and
      REPEAT wrapping where the sampler leaves them out. */
  datatype TextureParams = TextureParams(minFilter: int, magFilter: int, wrapS: int, wrapT: int)

  function SamplerParams(s: Sampler): (p: TextureParams)
    ensures p.minFilter == s.minFilter.GetOr(GL.NEAREST) && p.magFilter == s.magFilter.GetOr(GL.NEAREST)
    ensures p.wrapS == s.wrapS.GetOr(GL.REPEAT) && p.wrapT == s.wrapT.GetOr(GL.REPEAT)
  {
    TextureParams(s.minFilter.GetOr(GL.NEAREST), s.magFilter.GetOr(GL.NEAREST), s.wrapS.GetOr(GL.REPEAT), s.wrapT.GetOr(GL.REPEAT))
  }

  predicate TextureOk(doc: Document, t: nat) {
    t < |doc.textures| && doc.textures[t].source < |doc.images| && doc.textures[t].sampler < |doc.samplers|
  }

  /** The calls that upload texture `t` into the new texture `h`. */
  function TextureUploadCalls(doc: Document, t: nat, h: GL.Handle): seq<GL.GLCall>
    requires TextureOk(doc, t)
  {
    var tex := doc.textures[t];
    var p := SamplerParams(doc.samplers[tex.sampler]);
    [GL.Create(GL.TextureObject, h), GL.BindTexture(GL.TEXTURE_2D, GL.Obj(h)),
     GL.TexImage2D(GL.TEXTURE_2D, 0, GL.RGBA, GL.RGBA, GL.UNSIGNED_BYTE, doc.images[tex.source].el),
     GL.TexParameteri(GL.TEXTURE_2D, GL.TEXTURE_MIN_FILTER, p.minFilter),
     GL.TexParameteri(GL.TEXTURE_2D, GL.TEXTURE_MAG_FILTER, p.magFilter),
     GL.TexParameteri(GL.TEXTURE_2D, GL.TEXTURE_WRAP_S, p.wrapS),
     GL.TexParameteri(GL.TEXTURE_2D, GL.TEXTURE_WRAP_T, p.wrapT),
     GL.GenerateMipmap(GL.TEXTURE_2D)]
  }

  /** `uploadTexture(textureIndex)`: a miss creates, caches and fills one
      texture. On a hit the newer renderer issues nothing, while the older
      one (`rebindOnHit`) binds the cached texture again. */
  function UploadTextureStep(doc: Document, c: Caches, t: nat, rebindOnHit: bool): Upload
    requires TextureOk(doc, t)
  {
    if t in c.textures then
      Upload(c, if rebindOnHit then [GL.BindTexture(GL.TEXTURE_2D, GL.Obj(c.textures[t]))] else [], c.textures[t])
    else
      var h := c.next;
      Upload(c.(textures := c.textures[t := h], next := h + 1), TextureUploadCalls(doc, t, h), h)
  }

  /** The same memoisation for textures: one texture per index, created on
      the first request; a hit issues no call in the newer renderer and only
      the re-bind in the older one. */
  lemma UploadTextureMemo(doc: Document, c: Caches, t: nat, rebindOnHit: bool)
    requires TextureOk(doc, t)
    ensures var u := UploadTextureStep(doc, c, t, rebindOnHit);
      Keeps(c, u.after) && t in u.after.textures && u.after.textures[t] == u.handle &&
      u.after.buffers == c.buffers && GL.Draws(u.calls) == [] &&
      (t !in c.textures ==> GL.Created(u.calls) == [c.next] && u.handle == c.next && u.after.next == c.next + 1) &&
      (t in c.textures ==>
         u.after == c && u.handle == c.textures[t] &&
         u.calls == (if rebindOnHit then [GL.BindTexture(GL.TEXTURE_2D, GL.Obj(u.handle))] else []))
  {
    var u := UploadTextureStep(doc, c, t, rebindOnHit);
    if t !in c.textures {
      assert u.calls == [u.calls[0]] + u.calls[1..];
      GL.CreatedAppend([u.calls[0]], u.calls[1..]);
      GL.CreatedNone(u.calls[1..]);
    }
    GL.DrawsNone(u.calls);
  }

  lemma UploadTextureFresh(doc: Document, c: Caches, t: nat, rebindOnHit: bool)
    requires TextureOk(doc, t) && Fresh(c)
    ensures Fresh(UploadTextureStep(doc, c, t, rebindOnHit).after)
  {
  }

  /** The layout `uploadAttribute` gives `vertexAttribPointer` for accessor
      `a` read from `buffer`: the table size (0 for an unknown type, as WebGL
      converts `undefined`), the component type, `normalized` coerced to a
      boolean, the view's `byteStride` and the accessor's `byteOffset` (both
      0 when absent). */
  function AttributeLayout(doc: Document, a: nat, buffer: GL.Value): (cfg: Shader.AttributeConfig)
    requires WellFormed(doc) && a < |doc.accessors|
    ensures var acc := doc.accessors[a];
      (cfg.normalized <==> acc.normalized == Some(true)) &&
      (ItemSize(acc.accessorType).None? ==> cfg.size == 0) &&
      (ItemSize(acc.accessorType).Some? ==> cfg.size == ItemSize(acc.accessorType).value) &&
      cfg.cfgType == acc.componentType && cfg.buffer == buffer
  {
    var acc := doc.accessors[a];
    Shader.AttributeConfig(GL.ArgOr0(ItemSize(acc.accessorType)), acc.componentType, acc.normalized.GetOr(false),
                           GL.ArgOr0(doc.bufferViews[acc.bufferView].byteStride), GL.ArgOr0(acc.accessorOffset), buffer)
  }

  /** The fixed material binding of `renderMesh`: the base colour texture on
      unit 0 and the metallic-roughness texture on unit 1, each sampler
      uniform set to its unit. */
  function MaterialUnitCalls(baseLocation: GL.Value, mrLocation: GL.Value, base: GL.Handle, mr: GL.Handle): seq<GL.GLCall>
  {
    [GL.ActiveTexture(GL.TEXTURE0), GL.BindTexture(GL.TEXTURE_2D, GL.Obj(base)), GL.Uniform(GL.Uniform1i, baseLocation, GL.Num(0.0)),
     GL.ActiveTexture(GL.TEXTURE1), GL.BindTexture(GL.TEXTURE_2D, GL.Obj(mr)), GL.Uniform(GL.Uniform1i, mrLocation, GL.Num(1.0))]
  }

  // ---------------------------------------------------------------------
  // Node transforms and traversal

  /** The local matrix `renderNode` builds: `matrix` when present, otherwise
      compose(translation, ratation, scale) with the defaults [0, 0, 0],
      [0, 0, 0, 1] and [1, 1, 1] (section 3.5.3, Transformations, of the
      glTF 2.0 specification, but reading the key `ratation`). */
  function LocalMatrix(n: Node): Math.Mat4
    requires n.matrix.Some? ==> |n.matrix.value| >= 16
    requires n.translation.Some? ==> |n.translation.value| >= 3
    requires n.ratation.Some? ==> |n.ratation.value| >= 4
    requires n.scale.Some? ==> |n.scale.value| >= 3
  {
    match n.matrix
    case Some(m) => m[..16]
    case None =>
      Math.Composed(n.translation.GetOr([0.0, 0.0, 0.0]), n.ratation.GetOr([0.0, 0.0, 0.0, 1.0]), n.scale.GetOr([1.0, 1.0, 1.0]))
  }

  /** A node's `rotation` never affects its local matrix. */
  lemma RotationIgnored(n: Node, rotation: Option<seq<real>>)
    requires n.matrix.Some? ==> |n.matrix.value| >= 16
    requires n.translation.Some? ==> |n.translation.value| >= 3
    requires n.ratation.Some? ==> |n.ratation.value| >= 4
    requires n.scale.Some? ==> |n.scale.value| >= 3
    ensures LocalMatrix(n.(rotation := rotation)) == LocalMatrix(n)
  {
  }

  /** Without `matrix` and `ratation` the local matrix scales then translates;
      a node with no transform properties at all has the identity. */
  lemma LocalMatrixWithoutRotation(n: Node)
    requires n.matrix.None? && n.ratation.None?
    requires n.translation.Some? ==> |n.translation.value| >= 3
    requires n.scale.Some? ==> |n.scale.value| >= 3
    ensures var t := n.translation.GetOr([0.0, 0.0, 0.0]);
      var s := n.scale.GetOr([1.0, 1.0, 1.0]);
      LocalMatrix(n) == [s[0], 0.0, 0.0, 0.0, 0.0, s[1], 0.0, 0.0, 0.0, 0.0, s[2], 0.0, t[0], t[1], t[2], 1.0]
    ensures n.translation.None? && n.scale.None? ==> LocalMatrix(n) == Math.IdentityMatrix
  {
    Math.ComposeWithoutRotation(n.translation.GetOr([0.0, 0.0, 0.0]), n.scale.GetOr([1.0, 1.0, 1.0]));
    Math.ComposeDefaults([0.0, 0.0, 0.0]);
  }

  /** The first lines of `renderNode` in both renderers: the local matrix
      in a new Matrix4, from `matrix`, or composed from translation,
      `ratation` and scale. */
  method NewLocalMatrix(doc: Document, n: nat) returns (local: Math.Matrix4)
    requires WellFormed(doc) && n < |doc.nodes|
    ensures fresh(local) && fresh(local.e) && local.Valid()
    ensures local.Value() == LocalMatrix(doc.nodes[n])
  {
    var node := doc.nodes[n];
    assert NodeOk(doc, node);
    local := new Math.Matrix4();
    match node.matrix {
      case Some(m) =>
        local.CopyFrom(m);
      case None =>
        local.Compose(node.translation.GetOr([0.0, 0.0, 0.0]), node.ratation.GetOr([0.0, 0.0, 0.0, 1.0]),
                      node.scale.GetOr([1.0, 1.0, 1.0]));
    }
  }

  /** Then world = parent × local, in another new Matrix4. */
  method WorldMatrix(doc: Document, n: nat, parent: Math.Matrix4) returns (world: Math.Matrix4)
    requires WellFormed(doc) && parent.Valid() && n < |doc.nodes|
    ensures fresh(world) && fresh(world.e) && world.Valid()
    ensures world.Value() == Math.Mul(parent.Value(), LocalMatrix(doc.nodes[n]))
  {
    var local := NewLocalMatrix(doc, n);
    world := new Math.Matrix4();
    world.MultiplyMatrices(parent, local);
  }

  datatype Visit = Visit(mesh: nat, world: Math.Mat4)

  function Children(n: Node): seq<nat> {
    n.children.GetOr([])
  }

  /** The meshes `renderNode(n, parent)` renders, in order: the node's own
      mesh first (when `mesh >= 0`) with world = parent × local, then each
      child's visits in array order with world as their parent. */
  function Visits(doc: Document, rank: seq<nat>, n: nat, parent: Math.Mat4): (r: seq<Visit>)
    requires WellFormed(doc) && Ranked(doc, rank) && n < |doc.nodes|
    ensures forall i :: 0 <= i < |r| ==> r[i].mesh < |doc.meshes|
    decreases rank[n], 1
  {
    var node := doc.nodes[n];
    var world := Math.Mul(parent, LocalMatrix(node));
    (if HasMesh(node) then [Visit(node.mesh.value, world)] else []) +
    ChildVisits(doc, rank, Children(node), world, rank[n])
  }

  /** The visits of the subtrees `cs`, one after the other; `bound` ranks
      above every node in `cs`. */
  function ChildVisits(doc: Document, rank: seq<nat>, cs: seq<nat>, world: Math.Mat4, bound: nat): (r: seq<Visit>)
    requires WellFormed(doc) && Ranked(doc, rank)
    requires forall k :: 0 <= k < |cs| ==> cs[k] < |doc.nodes| && rank[cs[k]] < bound
    ensures forall i :: 0 <= i < |r| ==> r[i].mesh < |doc.meshes|
    decreases bound, 0, |cs|
  {
    if cs == [] then []
    else
      var last := |cs| - 1;
      ChildVisits(doc, rank, cs[..last], world, bound) + Visits(doc, rank, cs[last], world)
  }

  /** The children of node i satisfy the precondition of `ChildVisits`. */
  lemma ChildrenRanked(doc: Document, rank: seq<nat>, i: nat)
    requires WellFormed(doc) && Ranked(doc, rank) && i < |doc.nodes|
    ensures forall k :: 0 <= k < |Children(doc.nodes[i])| ==>
      Children(doc.nodes[i])[k] < |doc.nodes| && rank[Children(doc.nodes[i])[k]] < rank[i]
  {
  }

  /** A childless node with a mesh is rendered once, with world = parent ×
      local; a childless node without one renders nothing. */
  lemma LeafVisits(doc: Document, rank: seq<nat>, n: nat, parent: Math.Mat4)
    requires WellFormed(doc) && Ranked(doc, rank) && n < |doc.nodes|
    requires Children(doc.nodes[n]) == []
    ensures Visits(doc, rank, n, parent) ==
      if HasMesh(doc.nodes[n]) then [Visit(doc.nodes[n].mesh.value, Math.Mul(parent, LocalMatrix(doc.nodes[n])))] else []
  {
  }

  /** The visits of the roots of a scene, in order, all with the same parent. */
  function SceneVisits(doc: Document, rank: seq<nat>, roots: seq<nat>, parent: Math.Mat4): (r: seq<Visit>)
    requires WellFormed(doc) && Ranked(doc, rank)
    requires forall k :: 0 <= k < |roots| ==> roots[k] < |doc.nodes|
    ensures forall i :: 0 <= i < |r| ==> r[i].mesh < |doc.meshes|
  {
    if roots == [] then []
    else
      var last := |roots| - 1;
      SceneVisits(doc, rank, roots[..last], parent) + Visits(doc, rank, roots[last], parent)
  }

  /** The meshes `renderNode(n, …)` renders, in order, without their
      matrices: the projection of `Visits` onto meshes. */
  function NodeMeshes(doc: Document, rank: seq<nat>, n: nat): (r: seq<nat>)
    requires WellFormed(doc) && Ranked(doc, rank) && n < |doc.nodes|
    ensures MeshesOk(doc, r)
    decreases rank[n], 1
  {
    OwnMeshes(doc.nodes[n]) + ChildMeshes(doc, rank, Children(doc.nodes[n]), rank[n])
  }

  /** The node's own mesh, when `mesh >= 0`. */
  function OwnMeshes(node: Node): seq<nat> {
    if HasMesh(node) then [node.mesh.value] else []
  }

  function ChildMeshes(doc: Document, rank: seq<nat>, cs: seq<nat>, bound: nat): (r: seq<nat>)
    requires WellFormed(doc) && Ranked(doc, rank)
    requires forall k :: 0 <= k < |cs| ==> cs[k] < |doc.nodes| && rank[cs[k]] < bound
    ensures MeshesOk(doc, r)
    decreases bound, 0, |cs|
  {
    if cs == [] then []
    else
      var last := |cs| - 1;
      ChildMeshes(doc, rank, cs[..last], bound) + NodeMeshes(doc, rank, cs[last])
  }

  /** The meshes `renderScene` renders: those of each root in turn. */
  function SceneMeshes(doc: Document, rank: seq<nat>, roots: seq<nat>): (r: seq<nat>)
    requires WellFormed(doc) && Ranked(doc, rank)
    requires forall k :: 0 <= k < |roots| ==> roots[k] < |doc.nodes|
    ensures MeshesOk(doc, r)
  {
    if roots == [] then []
    else
      var last := |roots| - 1;
      SceneMeshes(doc, rank, roots[..last]) + NodeMeshes(doc, rank, roots[last])
  }

  predicate MeshesOk(doc: Document, ms: seq<nat>) {
    forall i :: 0 <= i < |ms| ==> ms[i] < |doc.meshes|
  }

  /** The two traversals agree: `NodeMeshes` lists the meshes of `Visits`,
      position by position. */
  lemma {:induction false} NodeMeshesOfVisits(doc: Document, rank: seq<nat>, n: nat, parent: Math.Mat4)
    requires WellFormed(doc) && Ranked(doc, rank) && n < |doc.nodes|
    ensures var v := Visits(doc, rank, n, parent); var ms := NodeMeshes(doc, rank, n);
      |v| == |ms| && forall i :: 0 <= i < |v| ==> v[i].mesh == ms[i]
    decreases rank[n], 1
  {
    var node := doc.nodes[n];
    var world := Math.Mul(parent, LocalMatrix(node));
    ChildrenRanked(doc, rank, n);
    ChildMeshesOfVisits(doc, rank, Children(node), world, rank[n]);
  }

  lemma {:induction false} ChildMeshesOfVisits(doc: Document, rank: seq<nat>, cs: seq<nat>, world: Math.Mat4, bound: nat)
    requires WellFormed(doc) && Ranked(doc, rank)
    requires forall k :: 0 <= k < |cs| ==> cs[k] < |doc.nodes| && rank[cs[k]] < bound
    ensures var v := ChildVisits(doc, rank, cs, world, bound); var ms := ChildMeshes(doc, rank, cs, bound);
      |v| == |ms| && forall i :: 0 <= i < |v| ==> v[i].mesh == ms[i]
    decreases bound, 0, |cs|
  {
    if cs != [] {
      var last := |cs| - 1;
      ChildMeshesOfVisits(doc, rank, cs[..last], world, bound);
      NodeMeshesOfVisits(doc, rank, cs[last], world);
    }
  }

  /** The draws of a run of meshes: each mesh's draws in turn. */
  function MeshSeqDraws(doc: Document, ms: seq<nat>): seq<GL.GLCall>
    requires WellFormed(doc) && MeshesOk(doc, ms)
  {
    if ms == [] then []
    else
      var last := |ms| - 1;
      MeshSeqDraws(doc, ms[..last]) + MeshDraws(doc, ms[last])
  }

  lemma MeshesOkAppend(doc: Document, a: seq<nat>, b: seq<nat>)
    requires MeshesOk(doc, a) && MeshesOk(doc, b)
    ensures MeshesOk(doc, a + b)
  {
    assert forall i :: 0 <= i < |a + b| ==> (a + b)[i] == if i < |a| then a[i] else b[i - |a|];
  }

  /** The draws of two runs of meshes concatenate. */
  lemma {:induction false} MeshSeqDrawsAppend(doc: Document, a: seq<nat>, b: seq<nat>)
    requires WellFormed(doc) && MeshesOk(doc, a) && MeshesOk(doc, b)
    ensures MeshesOk(doc, a + b)
    ensures MeshSeqDraws(doc, a + b) == MeshSeqDraws(doc, a) + MeshSeqDraws(doc, b)
    decreases |b|
  {
    var ab := a + b;
    MeshesOkAppend(doc, a, b);
    if b != [] {
      var last := |b| - 1;
      var init, m := b[..last], b[last];
      assert b == init + [m];
      assert ab == (a + init) + [m];
      assert MeshesOk(doc, init);
      MeshSeqDrawsAppend(doc, a, init);
      MeshSeqDrawsSnoc(doc, a + init, m);
      MeshSeqDrawsSnoc(doc, init, m);
      GL.AppendAssoc(MeshSeqDraws(doc, a), MeshSeqDraws(doc, init), MeshDraws(doc, m));
    } else {
      assert ab == a;
    }
  }

  lemma MeshSeqDrawsSnoc(doc: Document, ms: seq<nat>, m: nat)
    requires WellFormed(doc) && MeshesOk(doc, ms) && m < |doc.meshes|
    ensures MeshesOk(doc, ms + [m])
    ensures MeshSeqDraws(doc, ms + [m]) == MeshSeqDraws(doc, ms) + MeshDraws(doc, m)
  {
    var s := ms + [m];
    assert s[..|s| - 1] == ms;
  }
  // ---------------------------------------------------------------------
  // Loop steps of the renderers' draw proofs

  predicate PrimitivesOk(doc: Document, ps: seq<Primitive>) {
    forall i :: 0 <= i < |ps| ==> PrimitiveOk(doc, ps[i])
  }

  lemma MeshPrimitivesOk(doc: Document, m: nat)
    requires WellFormed(doc) && m < |doc.meshes|
    ensures PrimitivesOk(doc, doc.meshes[m].primitives)
  {
  }

  /** One iteration of the primitive loop of `renderMesh`: the draws so far
      extend by the next primitive's draw. */
  lemma PrimitiveDrawsStep(doc: Document, ps: seq<Primitive>, i: nat, d0: seq<GL.GLCall>, d1: seq<GL.GLCall>, d2: seq<GL.GLCall>)
    requires PrimitivesOk(doc, ps) && i < |ps|
    requires d1 == d0 + PrimitivesDraws(doc, ps[..i])
    requires d2 == d1 + [PrimitiveDraw(doc, ps[i])]
    ensures d2 == d0 + PrimitivesDraws(doc, ps[..i + 1])
  {
    assert ps[..i + 1][..i] == ps[..i];
    GL.AppendAssoc(d0, PrimitivesDraws(doc, ps[..i]), [PrimitiveDraw(doc, ps[i])]);
  }

  /** One iteration of the root loop of `renderScene`: the draws so far
      extend by those of the next root. */
  lemma SceneDrawsStep(doc: Document, rank: seq<nat>, roots: seq<nat>, i: nat, d0: seq<GL.GLCall>, d1: seq<GL.GLCall>, d2: seq<GL.GLCall>)
    requires WellFormed(doc) && Ranked(doc, rank) && i < |roots|
    requires forall k :: 0 <= k < |roots| ==> roots[k] < |doc.nodes|
    requires d1 == d0 + MeshSeqDraws(doc, SceneMeshes(doc, rank, roots[..i]))
    requires d2 == d1 + MeshSeqDraws(doc, NodeMeshes(doc, rank, roots[i]))
    ensures d2 == d0 + MeshSeqDraws(doc, SceneMeshes(doc, rank, roots[..i + 1]))
  {
    var before := SceneMeshes(doc, rank, roots[..i]);
    var next := NodeMeshes(doc, rank, roots[i]);
    assert roots[..i + 1][..i] == roots[..i];
    assert SceneMeshes(doc, rank, roots[..i + 1]) == before + next;
    MeshSeqDrawsAppend(doc, before, next);
    GL.AppendAssoc(d0, MeshSeqDraws(doc, before), MeshSeqDraws(doc, next));
  }

  /** One iteration of the child loop of `renderNode`. */
  lemma ChildDrawsStep(doc: Document, rank: seq<nat>, cs: seq<nat>, bound: nat, i: nat,
                       d0: seq<GL.GLCall>, d1: seq<GL.GLCall>, d2: seq<GL.GLCall>)
    requires WellFormed(doc) && Ranked(doc, rank) && i < |cs|
    requires forall k :: 0 <= k < |cs| ==> cs[k] < |doc.nodes| && rank[cs[k]] < bound
    requires d1 == d0 + MeshSeqDraws(doc, ChildMeshes(doc, rank, cs[..i], bound))
    requires d2 == d1 + MeshSeqDraws(doc, NodeMeshes(doc, rank, cs[i]))
    ensures d2 == d0 + MeshSeqDraws(doc, ChildMeshes(doc, rank, cs[..i + 1], bound))
  {
    var before := ChildMeshes(doc, rank, cs[..i], bound);
    var next := NodeMeshes(doc, rank, cs[i]);
    assert cs[..i + 1][..i] == cs[..i];
    assert ChildMeshes(doc, rank, cs[..i + 1], bound) == before + next;
    MeshSeqDrawsAppend(doc, before, next);
    GL.AppendAssoc(d0, MeshSeqDraws(doc, before), MeshSeqDraws(doc, next));
  }

  /** The end of `renderNode`: its own mesh's draws, then the children's. */
  lemma NodeDrawsEnd(doc: Document, rank: seq<nat>, n: nat, d0: seq<GL.GLCall>, d1: seq<GL.GLCall>, d2: seq<GL.GLCall>)
    requires WellFormed(doc) && Ranked(doc, rank) && n < |doc.nodes|
    requires var node := doc.nodes[n];
      (HasMesh(node) ==> node.mesh.value < |doc.meshes| && d1 == d0 + MeshDraws(doc, node.mesh.value)) &&
      (!HasMesh(node) ==> d1 == d0)
    requires d2 == d1 + MeshSeqDraws(doc, ChildMeshes(doc, rank, Children(doc.nodes[n]), rank[n]))
    ensures d2 == d0 + MeshSeqDraws(doc, NodeMeshes(doc, rank, n))
  {
    var node := doc.nodes[n];
    var own := OwnMeshes(node);
    var children := ChildMeshes(doc, rank, Children(node), rank[n]);
    assert MeshesOk(doc, own);
    assert d1 == d0 + MeshSeqDraws(doc, own) by {
      if HasMesh(node) {
        assert own[..0] == [];
        assert MeshSeqDraws(doc, own) == [] + MeshDraws(doc, node.mesh.value);
      } else {
        assert d0 + [] == d0;
      }
    }
    assert NodeMeshes(doc, rank, n) == own + children;
    MeshSeqDrawsAppend(doc, own, children);
    GL.AppendAssoc(d0, MeshSeqDraws(doc, own), MeshSeqDraws(doc, children));
  }

  // ---------------------------------------------------------------------
  // The renderer object
}
