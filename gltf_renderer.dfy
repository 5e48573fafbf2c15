/** renderers/glTFRenderer.js: draws a glTF scene through a `GLShader`,
    memoising uploads in two Map caches. The pure functions below say what
    each method does to the caches, the texture-unit allocator and the call
    log; the class implements them with the source's loops, recursion and
    in-place matrices. */
module GltfRenderer {
  import GL
  import Math
  import Gltf
  import Shader
  import TextureUnits

  /** The caches with the device's handle counter, the allocator, and the
      device's call log. */
  datatype RenderState = RenderState(caches: Gltf.Caches, units: TextureUnits.Units, log: seq<GL.GLCall>)

  /** The shader's reflection tables, which rendering reads but never changes. */
  datatype Tables = Tables(uniforms: map<string, Shader.UniformEntry>, attributes: map<string, Shader.AttributeEntry>)

  /** The two sampler uniforms `renderMesh` binds by hand; without them the
      source throws on `uniformInfo.baseColorTexture.location`. */
  predicate HasMaterialUniforms(t: Tables) {
    "baseColorTexture" in t.uniforms && "metallicRoughnessTexture" in t.uniforms
  }

  /** `later` keeps every cache entry of `earlier` and only appends to its log. */
  predicate Grows(earlier: RenderState, later: RenderState) {
    Gltf.Keeps(earlier.caches, later.caches) &&
    |earlier.log| <= |later.log| && later.log[..|earlier.log|] == earlier.log
  }

  lemma GrowsTransitive(a: RenderState, b: RenderState, c: RenderState)
    requires Grows(a, b) && Grows(b, c)
    ensures Grows(a, c)
  {
    assert c.log[..|a.log|] == c.log[..|b.log|][..|a.log|];
  }

  /** The log of `s` followed by `calls` grows `s`, and draws what `calls` draws. */
  lemma AppendGrows(s: RenderState, later: RenderState, calls: seq<GL.GLCall>)
    requires Gltf.Keeps(s.caches, later.caches) && later.log == s.log + calls
    ensures Grows(s, later) && GL.Draws(later.log) == GL.Draws(s.log) + GL.Draws(calls)
  {
    assert later.log[..|s.log|] == s.log;
    GL.DrawsAppend(s.log, calls);
  }

  function SetUniformStep(t: Tables, s: RenderState, name: string, data: GL.Value): RenderState
  {
    var e := Shader.SetUniformEffect(t.uniforms, s.units, name, data);
    RenderState(s.caches, e.after, s.log + e.calls)
  }

  /** A state after an upload, and the uploaded object. */
  datatype Uploaded = Uploaded(state: RenderState, handle: GL.Handle)

  function BufferStep(doc: Gltf.Document, s: RenderState, v: nat): Uploaded
    requires v < |doc.bufferViews| && doc.bufferViews[v].buffer < |doc.buffers|
  {
    var u := Gltf.UploadBufferStep(doc, s.caches, v);
    Uploaded(RenderState(u.after, s.units, s.log + u.calls), u.handle)
  }

  function TextureStep(doc: Gltf.Document, s: RenderState, t: nat): Uploaded
    requires Gltf.TextureOk(doc, t)
  {
    var u := Gltf.UploadTextureStep(doc, s.caches, t, false);
    Uploaded(RenderState(u.after, s.units, s.log + u.calls), u.handle)
  }

  /** `uploadAttribute(accessorIndex, attributeName)`: upload the accessor's
      view, then `setAttribute` with its layout. */
  function AttributeStep(doc: Gltf.Document, t: Tables, s: RenderState, a: nat, name: string): RenderState
    requires Gltf.WellFormed(doc) && a < |doc.accessors|
  {
    var b := BufferStep(doc, s, doc.accessors[a].bufferView);
    var cfg := Gltf.AttributeLayout(doc, a, GL.Obj(b.handle));
    b.state.(log := b.state.log + Shader.SetAttributeCalls(t.attributes, name, cfg))
  }

  /** The geometry part of a primitive: the index buffer, then POSITION,
      TEXCOORD_0 and NORMAL as `position`, `uv` and `normal`. */
  function GeometryStep(doc: Gltf.Document, t: Tables, s: RenderState, p: Gltf.Primitive): RenderState
    requires Gltf.WellFormed(doc) && Gltf.PrimitiveOk(doc, p)
  {
    var ib := BufferStep(doc, s, doc.accessors[p.indices].bufferView).state;
    var pos := AttributeStep(doc, t, ib, p.position, "position");
    var uv := AttributeStep(doc, t, pos, p.texcoord0, "uv");
    AttributeStep(doc, t, uv, p.normal, "normal")
  }

  /** The material part: reset the allocator, upload both textures and bind
      them to units 0 and 1. */
  function MaterialStep(doc: Gltf.Document, t: Tables, s: RenderState, material: nat): RenderState
    requires Gltf.WellFormed(doc) && material < |doc.materials| && HasMaterialUniforms(t)
  {
    var mat := doc.materials[material];
    var base := TextureStep(doc, s.(units := TextureUnits.ResetUnits(s.units)), mat.baseColorTexture);
    var mr := TextureStep(doc, base.state, mat.metallicRoughnessTexture);
    mr.state.(log := mr.state.log + Gltf.MaterialUnitCalls(t.uniforms["baseColorTexture"].uniformLocation,
                                                          t.uniforms["metallicRoughnessTexture"].uniformLocation,
                                                          base.handle, mr.handle))
  }

  /** One iteration of the primitive loop of `renderMesh`: geometry,
      material, and the draw. */
  function PrimitiveStep(doc: Gltf.Document, t: Tables, s: RenderState, p: Gltf.Primitive): RenderState
    requires Gltf.WellFormed(doc) && Gltf.PrimitiveOk(doc, p) && HasMaterialUniforms(t)
  {
    var m := MaterialStep(doc, t, GeometryStep(doc, t, s, p), p.material);
    m.(log := m.log + [Gltf.PrimitiveDraw(doc, p)])
  }

  /** The start of `renderMesh(meshIndex, world)` with camera inverse `cam`:
      modelToView = cam × world, then modelToWorld = world. */
  function MatrixUniforms(t: Tables, s: RenderState, cam: Math.Mat4, world: Math.Mat4): RenderState
  {
    SetUniformStep(t, SetUniformStep(t, s, "modelToView", GL.Floats(Math.Mul(cam, world))), "modelToWorld", GL.Floats(world))
  }

  // ---------------------------------------------------------------------
  // Properties

  lemma SetUniformStepDraws(t: Tables, s: RenderState, name: string, data: GL.Value)
    ensures var r := SetUniformStep(t, s, name, data);
      Grows(s, r) && GL.Draws(r.log) == GL.Draws(s.log)
  {
    var e := Shader.SetUniformEffect(t.uniforms, s.units, name, data);
    Shader.SetUniformNoDraws(t.uniforms, s.units, name, data);
    AppendGrows(s, SetUniformStep(t, s, name, data), e.calls);
  }

  lemma BufferStepDraws(doc: Gltf.Document, s: RenderState, v: nat)
    requires v < |doc.bufferViews| && doc.bufferViews[v].buffer < |doc.buffers|
    ensures var r := BufferStep(doc, s, v).state;
      Grows(s, r) && GL.Draws(r.log) == GL.Draws(s.log) && r.units == s.units
  {
    Gltf.UploadBufferMemo(doc, s.caches, v);
    AppendGrows(s, BufferStep(doc, s, v).state, Gltf.UploadBufferStep(doc, s.caches, v).calls);
  }

  lemma TextureStepDraws(doc: Gltf.Document, s: RenderState, t: nat)
    requires Gltf.TextureOk(doc, t)
    ensures var u := TextureStep(doc, s, t);
      Grows(s, u.state) && GL.Draws(u.state.log) == GL.Draws(s.log) && u.state.units == s.units &&
      t in u.state.caches.textures && u.state.caches.textures[t] == u.handle
  {
    Gltf.UploadTextureMemo(doc, s.caches, t, false);
    AppendGrows(s, TextureStep(doc, s, t).state, Gltf.UploadTextureStep(doc, s.caches, t, false).calls);
  }

  /** Uploading an attribute never draws and leaves the allocator alone. */
  lemma AttributeStepDraws(doc: Gltf.Document, t: Tables, s: RenderState, a: nat, name: string)
    requires Gltf.WellFormed(doc) && a < |doc.accessors|
    ensures var r := AttributeStep(doc, t, s, a, name);
      Grows(s, r) && GL.Draws(r.log) == GL.Draws(s.log) && r.units == s.units
  {
    var b := BufferStep(doc, s, doc.accessors[a].bufferView);
    var cfg := Gltf.AttributeLayout(doc, a, GL.Obj(b.handle));
    BufferStepDraws(doc, s, doc.accessors[a].bufferView);
    Shader.SetAttributeNoDraws(t.attributes, name, cfg);
    AppendGrows(b.state, AttributeStep(doc, t, s, a, name), Shader.SetAttributeCalls(t.attributes, name, cfg));
    GrowsTransitive(s, b.state, AttributeStep(doc, t, s, a, name));
  }

  lemma GeometryStepDraws(doc: Gltf.Document, t: Tables, s: RenderState, p: Gltf.Primitive)
    requires Gltf.WellFormed(doc) && Gltf.PrimitiveOk(doc, p)
    ensures var r := GeometryStep(doc, t, s, p);
      Grows(s, r) && GL.Draws(r.log) == GL.Draws(s.log) && r.units == s.units
  {
    var ib := BufferStep(doc, s, doc.accessors[p.indices].bufferView).state;
    var pos := AttributeStep(doc, t, ib, p.position, "position");
    var uv := AttributeStep(doc, t, pos, p.texcoord0, "uv");
    var nrm := AttributeStep(doc, t, uv, p.normal, "normal");
    BufferStepDraws(doc, s, doc.accessors[p.indices].bufferView);
    AttributeStepDraws(doc, t, ib, p.position, "position");
    AttributeStepDraws(doc, t, pos, p.texcoord0, "uv");
    AttributeStepDraws(doc, t, uv, p.normal, "normal");
    GrowsTransitive(s, ib, pos);
    GrowsTransitive(s, pos, uv);
    GrowsTransitive(s, uv, nrm);
  }

  /** The material part leaves the allocator reset, keeps both textures
      cached, and ends by binding the cached base colour texture to unit 0
      and the metallic-roughness texture to unit 1. */
  lemma MaterialStepBinds(doc: Gltf.Document, t: Tables, s: RenderState, material: nat)
    requires Gltf.WellFormed(doc) && material < |doc.materials| && HasMaterialUniforms(t)
    ensures var r := MaterialStep(doc, t, s, material);
      var mat := doc.materials[material];
      Grows(s, r) && GL.Draws(r.log) == GL.Draws(s.log) && r.units == TextureUnits.ResetUnits(s.units) &&
      mat.baseColorTexture in r.caches.textures && mat.metallicRoughnessTexture in r.caches.textures &&
      |r.log| >= 6 &&
      r.log[|r.log| - 6..] ==
        Gltf.MaterialUnitCalls(t.uniforms["baseColorTexture"].uniformLocation, t.uniforms["metallicRoughnessTexture"].uniformLocation,
                               r.caches.textures[mat.baseColorTexture], r.caches.textures[mat.metallicRoughnessTexture])
  {
    var mat := doc.materials[material];
    var s0 := s.(units := TextureUnits.ResetUnits(s.units));
    var base := TextureStep(doc, s0, mat.baseColorTexture);
    var mr := TextureStep(doc, base.state, mat.metallicRoughnessTexture);
    var binding := Gltf.MaterialUnitCalls(t.uniforms["baseColorTexture"].uniformLocation,
                                          t.uniforms["metallicRoughnessTexture"].uniformLocation, base.handle, mr.handle);
    var r := MaterialStep(doc, t, s, material);
    TextureStepDraws(doc, s0, mat.baseColorTexture);
    TextureStepDraws(doc, base.state, mat.metallicRoughnessTexture);
    GL.DrawsNone(binding);
    AppendGrows(mr.state, r, binding);
    assert Grows(s, s0);
    GrowsTransitive(s, s0, base.state);
    GrowsTransitive(s, base.state, mr.state);
    GrowsTransitive(s, mr.state, r);
    assert r.log[|r.log| - 6..] == binding;
  }

  /** Each primitive issues exactly one draw, its own, and keeps every
      cache entry, leaving the allocator reset. */
  lemma PrimitiveStepDraws(doc: Gltf.Document, t: Tables, s: RenderState, p: Gltf.Primitive)
    requires Gltf.WellFormed(doc) && Gltf.PrimitiveOk(doc, p) && HasMaterialUniforms(t)
    ensures var r := PrimitiveStep(doc, t, s, p);
      Grows(s, r) && GL.Draws(r.log) == GL.Draws(s.log) + [Gltf.PrimitiveDraw(doc, p)] &&
      r.units == TextureUnits.ResetUnits(s.units)
  {
    var g := GeometryStep(doc, t, s, p);
    var m := MaterialStep(doc, t, g, p.material);
    var r := PrimitiveStep(doc, t, s, p);
    GeometryStepDraws(doc, t, s, p);
    MaterialStepBinds(doc, t, g, p.material);
    AppendGrows(m, r, [Gltf.PrimitiveDraw(doc, p)]);
    GrowsTransitive(s, g, m);
    GrowsTransitive(s, m, r);
    assert GL.Draws([Gltf.PrimitiveDraw(doc, p)]) == [Gltf.PrimitiveDraw(doc, p)];
  }

  /** The draw comes right after the material's two textures are bound to
      units 0 and 1. */
  lemma PrimitiveStepUnits(doc: Gltf.Document, t: Tables, s: RenderState, p: Gltf.Primitive)
    requires Gltf.WellFormed(doc) && Gltf.PrimitiveOk(doc, p) && HasMaterialUniforms(t)
    ensures var r := PrimitiveStep(doc, t, s, p);
      var mat := doc.materials[p.material];
      mat.baseColorTexture in r.caches.textures && mat.metallicRoughnessTexture in r.caches.textures &&
      |r.log| >= 7 &&
      r.log[|r.log| - 7..] ==
        Gltf.MaterialUnitCalls(t.uniforms["baseColorTexture"].uniformLocation, t.uniforms["metallicRoughnessTexture"].uniformLocation,
                               r.caches.textures[mat.baseColorTexture], r.caches.textures[mat.metallicRoughnessTexture]) +
        [Gltf.PrimitiveDraw(doc, p)]
  {
    var g := GeometryStep(doc, t, s, p);
    var m := MaterialStep(doc, t, g, p.material);
    var r := PrimitiveStep(doc, t, s, p);
    MaterialStepBinds(doc, t, g, p.material);
    var mat := doc.materials[p.material];
    var draw := [Gltf.PrimitiveDraw(doc, p)];
    var units := Gltf.MaterialUnitCalls(t.uniforms["baseColorTexture"].uniformLocation, t.uniforms["metallicRoughnessTexture"].uniformLocation,
                                        m.caches.textures[mat.baseColorTexture], m.caches.textures[mat.metallicRoughnessTexture]);
    assert r.log == m.log + draw && r.caches == m.caches;
    GL.SuffixAppend(m.log, units, draw, r.log, 7);
  }


  /** With both matrix uniforms declared as mat4, `renderMesh` starts with
      the two matrix uploads, allocates no texture unit and draws nothing
      before the primitives. */
  lemma MatrixUniformsCalls(t: Tables, s: RenderState, cam: Math.Mat4, world: Math.Mat4)
    requires "modelToView" in t.uniforms && Shader.KindOf(t.uniforms["modelToView"].uniformType) == Shader.MatrixKind(4)
    requires "modelToWorld" in t.uniforms && Shader.KindOf(t.uniforms["modelToWorld"].uniformType) == Shader.MatrixKind(4)
    ensures var r := MatrixUniforms(t, s, cam, world);
      r.caches == s.caches && r.units == s.units &&
      r.log == s.log + [GL.UniformMatrix(4, t.uniforms["modelToView"].uniformLocation, false, GL.Floats(Math.Mul(cam, world))),
                        GL.UniformMatrix(4, t.uniforms["modelToWorld"].uniformLocation, false, GL.Floats(world))]
  {
  }

  /** Whatever the declared types, the matrix uniforms draw nothing. */
  lemma MatrixUniformsDraws(t: Tables, s: RenderState, cam: Math.Mat4, world: Math.Mat4)
    ensures var r := MatrixUniforms(t, s, cam, world);
      Grows(s, r) && GL.Draws(r.log) == GL.Draws(s.log)
  {
    var mv := SetUniformStep(t, s, "modelToView", GL.Floats(Math.Mul(cam, world)));
    SetUniformStepDraws(t, s, "modelToView", GL.Floats(Math.Mul(cam, world)));
    SetUniformStepDraws(t, mv, "modelToWorld", GL.Floats(world));
    GrowsTransitive(s, mv, MatrixUniforms(t, s, cam, world));
  }

  class GLTFRenderer {
    const gltf: Gltf.Document
    /** A ranking of the node graph that witnesses it is acyclic. */
    ghost const rank: seq<nat>
    const gl: GL.Device
    const shader: Shader.GLShader
    var bufferCache: map<nat, GL.Handle>
    var textureCache: map<nat, GL.Handle>
    /** `cameraWorldMatrixInvert`; null until `setCameraMatrix`. */
    var cameraInverse: Math.Matrix4?

    ghost predicate Valid()
      reads this
    {
      Gltf.WellFormed(gltf) && Gltf.Ranked(gltf, rank) && shader.gl == gl &&
      (cameraInverse != null ==> cameraInverse.Valid())
    }

    function ShaderTables(): Tables
      reads shader
    {
      Tables(shader.uniformInfo, shader.attributeInfo)
    }

    function Caches(): Gltf.Caches
      reads this, gl
    {
      Gltf.Caches(bufferCache, textureCache, gl.nextHandle)
    }

    function State(): RenderState
      reads this, gl, shader.units
    {
      RenderState(Caches(), shader.units.State(), gl.calls)
    }

    /** `new GLTFRenderer(gltf)`: empty caches and a freshly compiled
        shader from `vert` and `frag`, which shares the context `gl` and the
        allocator `units`. */
    constructor (gltf: Gltf.Document, ghost rank: seq<nat>, gl: GL.Device, units: TextureUnits.Allocator,
                 vert: string, frag: string, q: Shader.ProgramQueries)
      requires Gltf.WellFormed(gltf) && Gltf.Ranked(gltf, rank)
      requires |q.uniformLocations| == |q.activeUniforms|
      modifies gl
      ensures Valid() && this.gltf == gltf && this.rank == rank && this.gl == gl
      ensures fresh(shader) && shader.units == units && cameraInverse == null
      ensures bufferCache == map[] && textureCache == map[]
      ensures shader.glProg == old(gl.nextHandle) && gl.calls == old(gl.calls) + Shader.CompileCalls(shader.glProg, vert, frag)
      ensures ShaderTables() == Tables(Shader.UniformTable(q.activeUniforms, q.uniformLocations), Shader.AttributeTable(q.activeAttributes))
    {
      this.gltf := gltf;
      this.rank := rank;
      this.gl := gl;
      shader := new Shader.GLShader(gl, units, vert, frag, q);
      bufferCache := map[];
      textureCache := map[];
      cameraInverse := null;
    }

    /** `setCameraMatrix(matrix)`: keeps the inverse of a copy (the argument
        is left as it is) and sends entries 12, 13, 14 as the camera
        position. */
    method SetCameraMatrix(matrix: Math.Matrix4)
      requires Valid() && matrix.Valid()
      modifies this, gl, shader.units
      ensures Valid() && cameraInverse != null && fresh(cameraInverse.e)
      ensures cameraInverse.Value() == Math.Inverse(old(matrix.Value())) && matrix.Value() == old(matrix.Value())
      ensures var m := matrix.Value();
        State() == SetUniformStep(ShaderTables(), old(State()), "cameraWorldPosition", GL.Floats([m[12], m[13], m[14]]))
    {
      cameraInverse := Math.NewInverse(matrix);
      var position := [matrix.e[12], matrix.e[13], matrix.e[14]];
      var _, _ := shader.SetUniform("cameraWorldPosition", GL.Floats(position));
    }

    /** `uploadBuffer(bufferViewIndex)`. */
    method UploadBuffer(v: nat) returns (glBuffer: GL.Handle)
      requires Valid() && v < |gltf.bufferViews|
      modifies this, gl
      ensures Valid() && cameraInverse == old(cameraInverse)
      ensures State() == BufferStep(gltf, old(State()), v).state && glBuffer == BufferStep(gltf, old(State()), v).handle
    {
      var view := gltf.bufferViews[v];
      var target := GL.ArgOr0(view.target);
      if v in bufferCache {
        glBuffer := bufferCache[v];
        gl.Issue(GL.BindBuffer(target, GL.Obj(glBuffer)));
        return;
      }
      var data := Gltf.ViewBytes(gltf, v);
      glBuffer := gl.CreateObject(GL.BufferObject);
      bufferCache := bufferCache[v := glBuffer];
      gl.Issue(GL.BindBuffer(target, GL.Obj(glBuffer)));
      gl.Issue(GL.BufferBytes(target, data, GL.STATIC_DRAW));
    }

    /** `uploadTexture(textureIndex, uniformName)`; the uniform name is not
        used (its `setUniform` calls are commented out). */
    method UploadTexture(t: nat) returns (glTexture: GL.Handle)
      requires Valid() && Gltf.TextureOk(gltf, t)
      modifies this, gl
      ensures Valid() && cameraInverse == old(cameraInverse)
      ensures State() == TextureStep(gltf, old(State()), t).state && glTexture == TextureStep(gltf, old(State()), t).handle
    {
      if t in textureCache {
        return textureCache[t];
      }
      glTexture := gl.CreateObject(GL.TextureObject);
      textureCache := textureCache[t := glTexture];
      var calls := Gltf.TextureUploadCalls(gltf, t, glTexture);
      gl.IssueAll(calls[1..]);
      assert calls == [GL.Create(GL.TextureObject, glTexture)] + calls[1..];
    }

    /** `uploadAttribute(accessorIndex, attributeName)`. */
    method UploadAttribute(a: nat, name: string)
      requires Valid() && a < |gltf.accessors|
      modifies this, gl
      ensures Valid() && cameraInverse == old(cameraInverse)
      ensures State() == AttributeStep(gltf, ShaderTables(), old(State()), a, name)
    {
      var glBuffer := UploadBuffer(gltf.accessors[a].bufferView);
      var _ := shader.SetAttribute(name, Gltf.AttributeLayout(gltf, a, GL.Obj(glBuffer)));
    }

    /** The geometry lines of the primitive loop of `renderMesh`: the index
        buffer and the three attributes. */
    method UploadGeometry(p: Gltf.Primitive)
      requires Valid() && Gltf.PrimitiveOk(gltf, p)
      modifies this, gl
      ensures Valid() && cameraInverse == old(cameraInverse)
      ensures State() == GeometryStep(gltf, ShaderTables(), old(State()), p)
    {
      var indices := gltf.accessors[p.indices];
      var _ := UploadBuffer(indices.bufferView);
      UploadAttribute(p.position, "position");
      UploadAttribute(p.texcoord0, "uv");
      UploadAttribute(p.normal, "normal");
    }

    /** The material lines of the primitive loop of `renderMesh`: reset the
        allocator, upload both textures, bind them to units 0 and 1. */
    method BindMaterial(material: nat)
      requires Valid() && material < |gltf.materials| && HasMaterialUniforms(ShaderTables())
      modifies this, gl, shader.units
      ensures Valid() && cameraInverse == old(cameraInverse)
      ensures State() == MaterialStep(gltf, ShaderTables(), old(State()), material)
    {
      var mat := gltf.materials[material];
      shader.units.Reset();
      var baseColorTexture := UploadTexture(mat.baseColorTexture);
      var metallicRoughnessTexture := UploadTexture(mat.metallicRoughnessTexture);
      gl.IssueAll(Gltf.MaterialUnitCalls(shader.uniformInfo["baseColorTexture"].uniformLocation,
                                         shader.uniformInfo["metallicRoughnessTexture"].uniformLocation,
                                         baseColorTexture, metallicRoughnessTexture));
    }

    /** One iteration of the primitive loop of `renderMesh`. */
    method RenderPrimitive(p: Gltf.Primitive)
      requires Valid() && Gltf.PrimitiveOk(gltf, p) && HasMaterialUniforms(ShaderTables())
      modifies this, gl, shader.units
      ensures Valid() && cameraInverse == old(cameraInverse)
      ensures State() == PrimitiveStep(gltf, ShaderTables(), old(State()), p)
    {
      UploadGeometry(p);
      BindMaterial(p.material);
      gl.Issue(Gltf.PrimitiveDraw(gltf, p));
    }

    /** The first lines of `renderMesh`: modelToView = camera inverse ×
        world, computed in a new Matrix4, then modelToWorld = world. */
    method ModelMatrices(world: Math.Matrix4)
      requires Valid() && cameraInverse != null && world.Valid()
      modifies this, gl, shader.units
      ensures Valid() && cameraInverse == old(cameraInverse) && world.Value() == old(world.Value())
      ensures State() == MatrixUniforms(ShaderTables(), old(State()), cameraInverse.Value(), world.Value())
    {
      var modelView := new Math.Matrix4();
      modelView.MultiplyMatrices(cameraInverse, world);
      var _, _ := shader.SetUniform("modelToView", GL.Floats(modelView.Value()));
      var _, _ := shader.SetUniform("modelToWorld", GL.Floats(world.Value()));
    }

    /** `renderMesh(meshIndex, meshWorldMatrix)`: the two matrix uniforms,
        then the primitive loop. Each iteration is `RenderPrimitive`. */
    method RenderMesh(m: nat, world: Math.Matrix4)
      requires Valid() && cameraInverse != null && world.Valid() && m < |gltf.meshes| && HasMaterialUniforms(ShaderTables())
      modifies this, gl, shader.units
      ensures Valid() && cameraInverse == old(cameraInverse)
      ensures Grows(old(State()), State())
      ensures GL.Draws(gl.calls) == GL.Draws(old(gl.calls)) + Gltf.MeshDraws(gltf, m)
      ensures var start := MatrixUniforms(ShaderTables(), old(State()), cameraInverse.Value(), world.Value());
        |start.log| <= |gl.calls| && gl.calls[..|start.log|] == start.log
    {
      ghost var s0 := State();
      ModelMatrices(world);
      ghost var start := State();
      MatrixUniformsDraws(ShaderTables(), s0, cameraInverse.Value(), world.Value());
      var ps := gltf.meshes[m].primitives;
      Gltf.MeshPrimitivesOk(gltf, m);
      var i := 0;
      while i < |ps|
        invariant 0 <= i <= |ps|
        invariant Valid() && cameraInverse == old(cameraInverse)
        invariant Grows(start, State())
        invariant GL.Draws(gl.calls) == GL.Draws(start.log) + Gltf.PrimitivesDraws(gltf, ps[..i])
      {
        ghost var before := State();
        RenderPrimitive(ps[i]);
        PrimitiveStepDraws(gltf, ShaderTables(), before, ps[i]);
        GrowsTransitive(start, before, State());
        Gltf.PrimitiveDrawsStep(gltf, ps, i, GL.Draws(start.log), GL.Draws(before.log), GL.Draws(gl.calls));
        i := i + 1;
      }
      assert ps[..i] == ps;
      GrowsTransitive(s0, start, State());
    }

    /** `renderNode(nodeIndex, parentMatrix)`: renders the node's mesh with
        its world matrix, then recurses into the children with that matrix
        as their parent. */
    method RenderNode(n: nat, parent: Math.Matrix4)
      requires Valid() && cameraInverse != null && parent.Valid() && n < |gltf.nodes| && HasMaterialUniforms(ShaderTables())
      modifies this, gl, shader.units
      ensures Valid() && cameraInverse == old(cameraInverse)
      ensures Grows(old(State()), State())
      ensures GL.Draws(gl.calls) == GL.Draws(old(gl.calls)) + Gltf.MeshSeqDraws(gltf, Gltf.NodeMeshes(gltf, rank, n))
      decreases rank[n], 1
    {
      var world := Gltf.WorldMatrix(gltf, n, parent);
      ghost var s0 := State();
      RenderNodeMesh(n, world);
      ghost var s1 := State();
      RenderChildren(n, world);
      GrowsTransitive(s0, s1, State());
      Gltf.NodeDrawsEnd(gltf, rank, n, GL.Draws(s0.log), GL.Draws(s1.log), GL.Draws(gl.calls));
    }

    /** The mesh of node `n`, when it has one, drawn at `world`. */
    method RenderNodeMesh(n: nat, world: Math.Matrix4)
      requires Valid() && cameraInverse != null && world.Valid() && n < |gltf.nodes| && HasMaterialUniforms(ShaderTables())
      modifies this, gl, shader.units
      ensures Valid() && cameraInverse == old(cameraInverse) && HasMaterialUniforms(ShaderTables())
      ensures Grows(old(State()), State())
      ensures var node := gltf.nodes[n];
        (Gltf.HasMesh(node) ==>
           node.mesh.value < |gltf.meshes| &&
           GL.Draws(gl.calls) == GL.Draws(old(gl.calls)) + Gltf.MeshDraws(gltf, node.mesh.value)) &&
        (!Gltf.HasMesh(node) ==> GL.Draws(gl.calls) == GL.Draws(old(gl.calls)))
    {
      var node := gltf.nodes[n];
      if Gltf.HasMesh(node) {
        RenderMesh(node.mesh.value, world);
      }
    }

    /** The child loop of `renderNode(n, ...)`, each child with `world` as
        its parent matrix. */
    method RenderChildren(n: nat, world: Math.Matrix4)
      requires Valid() && cameraInverse != null && world.Valid() && n < |gltf.nodes| && HasMaterialUniforms(ShaderTables())
      modifies this, gl, shader.units
      ensures Valid() && cameraInverse == old(cameraInverse)
      ensures Grows(old(State()), State())
      ensures GL.Draws(gl.calls) ==
        GL.Draws(old(gl.calls)) + Gltf.MeshSeqDraws(gltf, Gltf.ChildMeshes(gltf, rank, Gltf.Children(gltf.nodes[n]), rank[n]))
      decreases rank[n], 0
    {
      ghost var s1 := State();
      var cs := Gltf.Children(gltf.nodes[n]);
      Gltf.ChildrenRanked(gltf, rank, n);
      var i := 0;
      while i < |cs|
        invariant 0 <= i <= |cs|
        invariant Valid() && cameraInverse == old(cameraInverse) && world.Valid()
        invariant Grows(s1, State())
        invariant GL.Draws(gl.calls) == GL.Draws(s1.log) + Gltf.MeshSeqDraws(gltf, Gltf.ChildMeshes(gltf, rank, cs[..i], rank[n]))
      {
        ghost var before := State();
        RenderNode(cs[i], world);
        GrowsTransitive(s1, before, State());
        Gltf.ChildDrawsStep(gltf, rank, cs, rank[n], i, GL.Draws(s1.log), GL.Draws(before.log), GL.Draws(gl.calls));
        i := i + 1;
      }
      assert cs[..i] == cs;
    }

    /** `renderScene(sceneIndex, parentMatrix)`: make the program current,
        then render each root node with the same parent matrix. */
    method RenderScene(sceneIndex: nat, parent: Math.Matrix4)
      requires Valid() && cameraInverse != null && parent.Valid() && sceneIndex < |gltf.scenes| && HasMaterialUniforms(ShaderTables())
      modifies this, gl, shader.units
      ensures Valid() && cameraInverse == old(cameraInverse)
      ensures Grows(old(State()), State())
      ensures |gl.calls| > |old(gl.calls)| && gl.calls[|old(gl.calls)|] == GL.UseProgram(GL.Obj(shader.glProg))
      ensures GL.Draws(gl.calls) == GL.Draws(old(gl.calls)) + Gltf.MeshSeqDraws(gltf, Gltf.SceneMeshes(gltf, rank, gltf.scenes[sceneIndex].nodes))
    {
      ghost var s0 := State();
      shader.Use();
      ghost var s1 := State();
      AppendGrows(s0, s1, [GL.UseProgram(GL.Obj(shader.glProg))]);
      var roots := gltf.scenes[sceneIndex].nodes;
      var i := 0;
      while i < |roots|
        invariant 0 <= i <= |roots|
        invariant Valid() && cameraInverse == old(cameraInverse)
        invariant Grows(s1, State())
        invariant GL.Draws(gl.calls) == GL.Draws(s0.log) + Gltf.MeshSeqDraws(gltf, Gltf.SceneMeshes(gltf, rank, roots[..i]))
      {
        ghost var before := State();
        RenderNode(roots[i], parent);
        GrowsTransitive(s1, before, State());
        Gltf.SceneDrawsStep(gltf, rank, roots, i, GL.Draws(s0.log), GL.Draws(before.log), GL.Draws(gl.calls));
        i := i + 1;
      }
      assert roots[..i] == roots;
      GrowsTransitive(s0, s1, State());
    }
  }
}
