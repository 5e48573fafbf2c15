/** glTFRenderer.js, the older renderer: it compiles its own program, reads
    fixed attribute and uniform locations once, and binds the two material
    textures to units 0 and 1 by hand, without a texture-unit allocator. The
    pure functions below say what each method does to the caches and the
    call log; the class implements them with the source's loops, recursion
    and in-place matrices. */
module LegacyRenderer {
  import GL
  import Math
  import Gltf
  import Shader

  /** The locations `initUniformLocation` queries that the modelled methods
      use: three attribute indices and five uniform locations. */
  datatype Locations = Locations(position: int, normal: int, uv: int,
                                 baseColorTexture: GL.Value, metallicRoughnessTexture: GL.Value,
                                 cameraWorldPosition: GL.Value, modelToWorld: GL.Value, modelToView: GL.Value)

  /** The caches with the device's handle counter, and the device's call log. */
  datatype LegacyState = LegacyState(caches: Gltf.Caches, log: seq<GL.GLCall>)

  /** No call of `calls` makes a program current. */
  predicate NoProgramSwitch(calls: seq<GL.GLCall>) {
    forall k :: 0 <= k < |calls| ==> !calls[k].UseProgram?
  }

  /** `later` keeps every cache entry of `earlier` and only appends to its
      log, never switching programs: the renderer relies on the program that
      `compileShader` made current. */
  predicate Extends(earlier: LegacyState, later: LegacyState) {
    Gltf.Keeps(earlier.caches, later.caches) &&
    |earlier.log| <= |later.log| && later.log[..|earlier.log|] == earlier.log &&
    NoProgramSwitch(later.log[|earlier.log|..])
  }

  lemma ExtendsTransitive(a: LegacyState, b: LegacyState, c: LegacyState)
    requires Extends(a, b) && Extends(b, c)
    ensures Extends(a, c)
  {
    assert c.log[..|a.log|] == c.log[..|b.log|][..|a.log|];
    assert c.log[|a.log|..] == b.log[|a.log|..] + c.log[|b.log|..];
  }

  /** The log of `s` followed by `calls` extends `s` when `calls` switch no
      program, and draws what `calls` draws. */
  lemma AppendExtends(s: LegacyState, later: LegacyState, calls: seq<GL.GLCall>)
    requires Gltf.Keeps(s.caches, later.caches) && later.log == s.log + calls && NoProgramSwitch(calls)
    ensures Extends(s, later) && GL.Draws(later.log) == GL.Draws(s.log) + GL.Draws(calls)
  {
    assert later.log[..|s.log|] == s.log;
    assert later.log[|s.log|..] == calls;
    GL.DrawsAppend(s.log, calls);
  }

  /** A state after an upload, and the uploaded object. */
  datatype Uploaded = Uploaded(state: LegacyState, handle: GL.Handle)

  function BufferStep(doc: Gltf.Document, s: LegacyState, v: nat): Uploaded
    requires v < |doc.bufferViews| && doc.bufferViews[v].buffer < |doc.buffers|
  {
    var u := Gltf.UploadBufferStep(doc, s.caches, v);
    Uploaded(LegacyState(u.after, s.log + u.calls), u.handle)
  }

  /** Unlike the newer renderer, a cache hit binds the cached texture again. */
  function TextureStep(doc: Gltf.Document, s: LegacyState, t: nat): Uploaded
    requires Gltf.TextureOk(doc, t)
  {
    var u := Gltf.UploadTextureStep(doc, s.caches, t, true);
    Uploaded(LegacyState(u.after, s.log + u.calls), u.handle)
  }

  /** The two pointer calls of `uploadAttribute` at attribute index `loc`:
      no `bindBuffer(ARRAY_BUFFER, ...)` of its own, the buffer stays bound
      to the view's target. */
  function PointerCalls(loc: int, cfg: Shader.AttributeConfig): seq<GL.GLCall>
  {
    [GL.EnableVertexAttribArray(loc), GL.VertexAttribPointer(loc, cfg.size, cfg.cfgType, cfg.normalized, cfg.stride, cfg.offset)]
  }

  /** `uploadAttribute(accessorIndex, attributeLocation)`: upload the
      accessor's view, then enable and describe the attribute. */
  function AttributeStep(doc: Gltf.Document, s: LegacyState, a: nat, loc: int): LegacyState
    requires Gltf.WellFormed(doc) && a < |doc.accessors|
  {
    var b := BufferStep(doc, s, doc.accessors[a].bufferView);
    b.state.(log := b.state.log + PointerCalls(loc, Gltf.AttributeLayout(doc, a, GL.Obj(b.handle))))
  }

  /** The geometry part of a primitive: the index buffer, then POSITION,
      TEXCOORD_0 and NORMAL at the position, uv and normal locations. */
  function GeometryStep(doc: Gltf.Document, l: Locations, s: LegacyState, p: Gltf.Primitive): LegacyState
    requires Gltf.WellFormed(doc) && Gltf.PrimitiveOk(doc, p)
  {
    var ib := BufferStep(doc, s, doc.accessors[p.indices].bufferView).state;
    var pos := AttributeStep(doc, ib, p.position, l.position);
    var uv := AttributeStep(doc, pos, p.texcoord0, l.uv);
    AttributeStep(doc, uv, p.normal, l.normal)
  }

  /** The material part: upload both textures and bind them to units 0 and 1. */
  function MaterialStep(doc: Gltf.Document, l: Locations, s: LegacyState, material: nat): LegacyState
    requires Gltf.WellFormed(doc) && material < |doc.materials|
  {
    var mat := doc.materials[material];
    var base := TextureStep(doc, s, mat.baseColorTexture);
    var mr := TextureStep(doc, base.state, mat.metallicRoughnessTexture);
    mr.state.(log := mr.state.log + Gltf.MaterialUnitCalls(l.baseColorTexture, l.metallicRoughnessTexture, base.handle, mr.handle))
  }

  /** One iteration of the primitive loop of `renderMesh`. */
  function PrimitiveStep(doc: Gltf.Document, l: Locations, s: LegacyState, p: Gltf.Primitive): LegacyState
    requires Gltf.WellFormed(doc) && Gltf.PrimitiveOk(doc, p)
  {
    var m := MaterialStep(doc, l, GeometryStep(doc, l, s, p), p.material);
    m.(log := m.log + [Gltf.PrimitiveDraw(doc, p)])
  }

  /** The start of `renderMesh(meshIndex, world)` with camera inverse `cam`. */
  function MatrixCalls(l: Locations, cam: Math.Mat4, world: Math.Mat4): seq<GL.GLCall>
  {
    [GL.UniformMatrix(4, l.modelToView, false, GL.Floats(Math.Mul(cam, world))),
     GL.UniformMatrix(4, l.modelToWorld, false, GL.Floats(world))]
  }

  // ---------------------------------------------------------------------
  // Properties

  lemma BufferStepDraws(doc: Gltf.Document, s: LegacyState, v: nat)
    requires v < |doc.bufferViews| && doc.bufferViews[v].buffer < |doc.buffers|
    ensures var r := BufferStep(doc, s, v).state;
      Extends(s, r) && GL.Draws(r.log) == GL.Draws(s.log)
  {
    Gltf.UploadBufferMemo(doc, s.caches, v);
    AppendExtends(s, BufferStep(doc, s, v).state, Gltf.UploadBufferStep(doc, s.caches, v).calls);
  }

  /** A texture upload keeps the texture cached under its index; a hit issues
      exactly the re-bind of the cached handle. */
  lemma TextureStepDraws(doc: Gltf.Document, s: LegacyState, t: nat)
    requires Gltf.TextureOk(doc, t)
    ensures var u := TextureStep(doc, s, t);
      Extends(s, u.state) && GL.Draws(u.state.log) == GL.Draws(s.log) &&
      t in u.state.caches.textures && u.state.caches.textures[t] == u.handle &&
      (t in s.caches.textures ==>
         u.handle == s.caches.textures[t] && u.state.log == s.log + [GL.BindTexture(GL.TEXTURE_2D, GL.Obj(u.handle))])
  {
    Gltf.UploadTextureMemo(doc, s.caches, t, true);
    AppendExtends(s, TextureStep(doc, s, t).state, Gltf.UploadTextureStep(doc, s.caches, t, true).calls);
  }

  /** Uploading an attribute never draws; it ends with the enable and the
      pointer call at the given index, with the accessor's layout. */
  lemma AttributeStepDraws(doc: Gltf.Document, s: LegacyState, a: nat, loc: int)
    requires Gltf.WellFormed(doc) && a < |doc.accessors|
    ensures var b := BufferStep(doc, s, doc.accessors[a].bufferView);
      var r := AttributeStep(doc, s, a, loc);
      Extends(s, r) && GL.Draws(r.log) == GL.Draws(s.log) &&
      r.log == b.state.log + PointerCalls(loc, Gltf.AttributeLayout(doc, a, GL.Obj(b.handle)))
  {
    var b := BufferStep(doc, s, doc.accessors[a].bufferView);
    var calls := PointerCalls(loc, Gltf.AttributeLayout(doc, a, GL.Obj(b.handle)));
    BufferStepDraws(doc, s, doc.accessors[a].bufferView);
    GL.DrawsNone(calls);
    AppendExtends(b.state, AttributeStep(doc, s, a, loc), calls);
    ExtendsTransitive(s, b.state, AttributeStep(doc, s, a, loc));
  }

  lemma GeometryStepDraws(doc: Gltf.Document, l: Locations, s: LegacyState, p: Gltf.Primitive)
    requires Gltf.WellFormed(doc) && Gltf.PrimitiveOk(doc, p)
    ensures var r := GeometryStep(doc, l, s, p);
      Extends(s, r) && GL.Draws(r.log) == GL.Draws(s.log)
  {
    var ib := BufferStep(doc, s, doc.accessors[p.indices].bufferView).state;
    var pos := AttributeStep(doc, ib, p.position, l.position);
    var uv := AttributeStep(doc, pos, p.texcoord0, l.uv);
    var nrm := AttributeStep(doc, uv, p.normal, l.normal);
    BufferStepDraws(doc, s, doc.accessors[p.indices].bufferView);
    AttributeStepDraws(doc, ib, p.position, l.position);
    AttributeStepDraws(doc, pos, p.texcoord0, l.uv);
    AttributeStepDraws(doc, uv, p.normal, l.normal);
    ExtendsTransitive(s, ib, pos);
    ExtendsTransitive(s, pos, uv);
    ExtendsTransitive(s, uv, nrm);
  }

  /** The material part keeps both textures cached and ends by binding the
      cached base colour texture to unit 0 and the metallic-roughness
      texture to unit 1, at the fixed sampler locations. */
  lemma MaterialStepBinds(doc: Gltf.Document, l: Locations, s: LegacyState, material: nat)
    requires Gltf.WellFormed(doc) && material < |doc.materials|
    ensures var r := MaterialStep(doc, l, s, material);
      var mat := doc.materials[material];
      Extends(s, r) && GL.Draws(r.log) == GL.Draws(s.log) &&
      mat.baseColorTexture in r.caches.textures && mat.metallicRoughnessTexture in r.caches.textures &&
      |r.log| >= 6 &&
      r.log[|r.log| - 6..] ==
        Gltf.MaterialUnitCalls(l.baseColorTexture, l.metallicRoughnessTexture,
                               r.caches.textures[mat.baseColorTexture], r.caches.textures[mat.metallicRoughnessTexture])
  {
    var mat := doc.materials[material];
    var base := TextureStep(doc, s, mat.baseColorTexture);
    var mr := TextureStep(doc, base.state, mat.metallicRoughnessTexture);
    var binding := Gltf.MaterialUnitCalls(l.baseColorTexture, l.metallicRoughnessTexture, base.handle, mr.handle);
    var r := MaterialStep(doc, l, s, material);
    TextureStepDraws(doc, s, mat.baseColorTexture);
    TextureStepDraws(doc, base.state, mat.metallicRoughnessTexture);
    GL.DrawsNone(binding);
    AppendExtends(mr.state, r, binding);
    ExtendsTransitive(s, base.state, mr.state);
    ExtendsTransitive(s, mr.state, r);
    assert r.log[|r.log| - 6..] == binding;
  }

  /** Each primitive issues exactly one draw, its own, and keeps every
      cache entry. */
  lemma PrimitiveStepDraws(doc: Gltf.Document, l: Locations, s: LegacyState, p: Gltf.Primitive)
    requires Gltf.WellFormed(doc) && Gltf.PrimitiveOk(doc, p)
    ensures var r := PrimitiveStep(doc, l, s, p);
      Extends(s, r) && GL.Draws(r.log) == GL.Draws(s.log) + [Gltf.PrimitiveDraw(doc, p)]
  {
    var g := GeometryStep(doc, l, s, p);
    var m := MaterialStep(doc, l, g, p.material);
    var r := PrimitiveStep(doc, l, s, p);
    GeometryStepDraws(doc, l, s, p);
    MaterialStepBinds(doc, l, g, p.material);
    AppendExtends(m, r, [Gltf.PrimitiveDraw(doc, p)]);
    ExtendsTransitive(s, g, m);
    ExtendsTransitive(s, m, r);
    assert GL.Draws([Gltf.PrimitiveDraw(doc, p)]) == [Gltf.PrimitiveDraw(doc, p)];
  }

  /** The draw comes right after the material's two textures are bound to
      units 0 and 1. */
  lemma PrimitiveStepUnits(doc: Gltf.Document, l: Locations, s: LegacyState, p: Gltf.Primitive)
    requires Gltf.WellFormed(doc) && Gltf.PrimitiveOk(doc, p)
    ensures var r := PrimitiveStep(doc, l, s, p);
      var mat := doc.materials[p.material];
      mat.baseColorTexture in r.caches.textures && mat.metallicRoughnessTexture in r.caches.textures &&
      |r.log| >= 7 &&
      r.log[|r.log| - 7..] ==
        Gltf.MaterialUnitCalls(l.baseColorTexture, l.metallicRoughnessTexture,
                               r.caches.textures[mat.baseColorTexture], r.caches.textures[mat.metallicRoughnessTexture]) +
        [Gltf.PrimitiveDraw(doc, p)]
  {
    var g := GeometryStep(doc, l, s, p);
    var m := MaterialStep(doc, l, g, p.material);
    var r := PrimitiveStep(doc, l, s, p);
    MaterialStepBinds(doc, l, g, p.material);
    var mat := doc.materials[p.material];
    var draw := [Gltf.PrimitiveDraw(doc, p)];
    var units := Gltf.MaterialUnitCalls(l.baseColorTexture, l.metallicRoughnessTexture,
                                        m.caches.textures[mat.baseColorTexture], m.caches.textures[mat.metallicRoughnessTexture]);
    assert r.log == m.log + draw && r.caches == m.caches;
    GL.SuffixAppend(m.log, units, draw, r.log, 7);
  }


  /** The two matrix uploads draw nothing and switch no program. */
  lemma MatrixCallsDraws(s: LegacyState, later: LegacyState, l: Locations, cam: Math.Mat4, world: Math.Mat4)
    requires later == s.(log := s.log + MatrixCalls(l, cam, world))
    ensures Extends(s, later) && GL.Draws(later.log) == GL.Draws(s.log)
  {
    GL.DrawsNone(MatrixCalls(l, cam, world));
    AppendExtends(s, later, MatrixCalls(l, cam, world));
  }

  class LegacyGLTFRenderer {
    const gltf: Gltf.Document
    /** A ranking of the node graph that witnesses it is acyclic. */
    ghost const rank: seq<nat>
    const gl: GL.Device
    var glBufferCache: map<nat, GL.Handle>
    var glTextureCache: map<nat, GL.Handle>
    var glProg: GL.Handle
    /** The `console.error` output of `compileShader`. */
    var diagnostics: seq<Shader.Diagnostic>
    var locations: Locations
    /** `cameraWorldMatrixInvert`; null until `setCameraMatrix`. */
    var cameraInverse: Math.Matrix4?

    ghost predicate Valid()
      reads this
    {
      Gltf.WellFormed(gltf) && Gltf.Ranked(gltf, rank) && (cameraInverse != null ==> cameraInverse.Valid())
    }

    function State(): LegacyState
      reads this, gl
    {
      LegacyState(Gltf.Caches(glBufferCache, glTextureCache, gl.nextHandle), gl.calls)
    }

    /** `new GLTFRenderer(gltf, gl)`: compile the program from `vert` and
        `frag`, take the locations the program reports (`locs`), then enable
        depth testing and back-face culling. */
    constructor (gltf: Gltf.Document, ghost rank: seq<nat>, gl: GL.Device, vert: string, frag: string,
                 q: Shader.ProgramQueries, locs: Locations)
      requires Gltf.WellFormed(gltf) && Gltf.Ranked(gltf, rank)
      modifies gl
      ensures Valid() && this.gltf == gltf && this.rank == rank && this.gl == gl && cameraInverse == null
      ensures glBufferCache == map[] && glTextureCache == map[] && locations == locs
      ensures glProg == old(gl.nextHandle) && gl.nextHandle == glProg + 3
      ensures gl.calls == old(gl.calls) + Shader.CompileCalls(glProg, vert, frag) + [GL.Enable(GL.DEPTH_TEST), GL.Enable(GL.CULL_FACE)]
      ensures diagnostics == Shader.CompileDiagnostics(q, vert, frag)
    {
      this.gltf := gltf;
      this.rank := rank;
      this.gl := gl;
      glBufferCache := map[];
      glTextureCache := map[];
      cameraInverse := null;
      new;
      CompileShader(vert, frag, q);
      locations := locs;
      gl.Issue(GL.Enable(GL.DEPTH_TEST));
      gl.Issue(GL.Enable(GL.CULL_FACE));
    }

    /** `compileShader()`: the same calls as `GLShader.compile`, with each
        failed shader reported with its source numbered from line 0. */
    method CompileShader(vert: string, frag: string, q: Shader.ProgramQueries)
      modifies this, gl
      ensures glProg == old(gl.nextHandle) && gl.nextHandle == glProg + 3
      ensures gl.calls == old(gl.calls) + Shader.CompileCalls(glProg, vert, frag)
      ensures diagnostics == Shader.CompileDiagnostics(q, vert, frag)
      ensures glBufferCache == old(glBufferCache) && glTextureCache == old(glTextureCache)
      ensures cameraInverse == old(cameraInverse) && locations == old(locations)
    {
      var p := gl.CreateObject(GL.ProgramObject);
      var v := gl.CreateObject(GL.ShaderObject(GL.VERTEX_SHADER));
      var f := gl.CreateObject(GL.ShaderObject(GL.FRAGMENT_SHADER));
      gl.IssueAll([GL.ShaderSource(v, vert), GL.ShaderSource(f, frag),
                   GL.CompileShader(v), GL.CompileShader(f),
                   GL.AttachShader(p, v), GL.AttachShader(p, f), GL.LinkProgram(p),
                   GL.UseProgram(GL.Obj(p)), GL.DeleteShader(v), GL.DeleteShader(f)]);
      var log: seq<Shader.Diagnostic> := [];
      if !q.vertCompiled {
        log := log + [Shader.CompileError(q.vertLog, Shader.FormatShaderCode(vert))];
      }
      if !q.fragCompiled {
        log := log + [Shader.CompileError(q.fragLog, Shader.FormatShaderCode(frag))];
      }
      if !q.linked {
        log := log + [Shader.LinkError(q.programLog)];
      }
      glProg := p;
      diagnostics := log;
    }

    /** `setCameraMatrix(matrix)`: keeps the inverse of a copy and sends
        entries 12, 13, 14 to the fixed camera position location. */
    method SetCameraMatrix(matrix: Math.Matrix4)
      requires Valid() && matrix.Valid()
      modifies this, gl
      ensures Valid() && cameraInverse != null && fresh(cameraInverse.e)
      ensures cameraInverse.Value() == Math.Inverse(old(matrix.Value())) && matrix.Value() == old(matrix.Value())
      ensures glBufferCache == old(glBufferCache) && glTextureCache == old(glTextureCache) && locations == old(locations)
      ensures gl.nextHandle == old(gl.nextHandle)
      ensures var m := matrix.Value();
        gl.calls == old(gl.calls) + [GL.Uniform(GL.Uniform3fv, locations.cameraWorldPosition, GL.Floats([m[12], m[13], m[14]]))]
    {
      cameraInverse := Math.NewInverse(matrix);
      var position := [matrix.e[12], matrix.e[13], matrix.e[14]];
      gl.Issue(GL.Uniform(GL.Uniform3fv, locations.cameraWorldPosition, GL.Floats(position)));
    }

    /** `uploadTexture(textureIndex)`. */
    method UploadTexture(t: nat) returns (glTexture: GL.Handle)
      requires Valid() && Gltf.TextureOk(gltf, t)
      modifies this, gl
      ensures Valid() && cameraInverse == old(cameraInverse) && locations == old(locations)
      ensures State() == TextureStep(gltf, old(State()), t).state && glTexture == TextureStep(gltf, old(State()), t).handle
    {
      if t in glTextureCache {
        glTexture := glTextureCache[t];
        gl.Issue(GL.BindTexture(GL.TEXTURE_2D, GL.Obj(glTexture)));
        return;
      }
      glTexture := gl.CreateObject(GL.TextureObject);
      glTextureCache := glTextureCache[t := glTexture];
      var calls := Gltf.TextureUploadCalls(gltf, t, glTexture);
      gl.IssueAll(calls[1..]);
      assert calls == [GL.Create(GL.TextureObject, glTexture)] + calls[1..];
    }

    /** `uploadBuffer(bufferViewIndex)`. */
    method UploadBuffer(v: nat) returns (glBuffer: GL.Handle)
      requires Valid() && v < |gltf.bufferViews|
      modifies this, gl
      ensures Valid() && cameraInverse == old(cameraInverse) && locations == old(locations)
      ensures State() == BufferStep(gltf, old(State()), v).state && glBuffer == BufferStep(gltf, old(State()), v).handle
    {
      var view := gltf.bufferViews[v];
      var target := GL.ArgOr0(view.target);
      if v in glBufferCache {
        glBuffer := glBufferCache[v];
        gl.Issue(GL.BindBuffer(target, GL.Obj(glBuffer)));
        return;
      }
      var data := Gltf.ViewBytes(gltf, v);
      glBuffer := gl.CreateObject(GL.BufferObject);
      glBufferCache := glBufferCache[v := glBuffer];
      gl.Issue(GL.BindBuffer(target, GL.Obj(glBuffer)));
      gl.Issue(GL.BufferBytes(target, data, GL.STATIC_DRAW));
    }

    /** `uploadAttribute(accessorIndex, attributeLocation)`. */
    method UploadAttribute(a: nat, loc: int)
      requires Valid() && a < |gltf.accessors|
      modifies this, gl
      ensures Valid() && cameraInverse == old(cameraInverse) && locations == old(locations)
      ensures State() == AttributeStep(gltf, old(State()), a, loc)
    {
      var glBuffer := UploadBuffer(gltf.accessors[a].bufferView);
      var cfg := Gltf.AttributeLayout(gltf, a, GL.Obj(glBuffer));
      gl.Issue(GL.EnableVertexAttribArray(loc));
      gl.Issue(GL.VertexAttribPointer(loc, cfg.size, cfg.cfgType, cfg.normalized, cfg.stride, cfg.offset));
    }

    /** The geometry lines of the primitive loop of `renderMesh`. */
    method UploadGeometry(p: Gltf.Primitive)
      requires Valid() && Gltf.PrimitiveOk(gltf, p)
      modifies this, gl
      ensures Valid() && cameraInverse == old(cameraInverse) && locations == old(locations)
      ensures State() == GeometryStep(gltf, locations, old(State()), p)
    {
      var indices := gltf.accessors[p.indices];
      var _ := UploadBuffer(indices.bufferView);
      UploadAttribute(p.position, locations.position);
      UploadAttribute(p.texcoord0, locations.uv);
      UploadAttribute(p.normal, locations.normal);
    }

    /** The material lines of the primitive loop of `renderMesh`. */
    method BindMaterial(material: nat)
      requires Valid() && material < |gltf.materials|
      modifies this, gl
      ensures Valid() && cameraInverse == old(cameraInverse) && locations == old(locations)
      ensures State() == MaterialStep(gltf, locations, old(State()), material)
    {
      var mat := gltf.materials[material];
      var baseColorTexture := UploadTexture(mat.baseColorTexture);
      var metallicRoughnessTexture := UploadTexture(mat.metallicRoughnessTexture);
      gl.IssueAll(Gltf.MaterialUnitCalls(locations.baseColorTexture, locations.metallicRoughnessTexture,
                                         baseColorTexture, metallicRoughnessTexture));
    }

    /** One iteration of the primitive loop of `renderMesh`. */
    method RenderPrimitive(p: Gltf.Primitive)
      requires Valid() && Gltf.PrimitiveOk(gltf, p)
      modifies this, gl
      ensures Valid() && cameraInverse == old(cameraInverse) && locations == old(locations)
      ensures State() == PrimitiveStep(gltf, locations, old(State()), p)
    {
      UploadGeometry(p);
      BindMaterial(p.material);
      gl.Issue(Gltf.PrimitiveDraw(gltf, p));
    }

    /** The first lines of `renderMesh`: modelToView = camera inverse ×
        world, computed in a new Matrix4, then modelToWorld = world. */
    method ModelMatrices(world: Math.Matrix4)
      requires Valid() && cameraInverse != null && world.Valid()
      modifies gl
      ensures world.Value() == old(world.Value()) && gl.nextHandle == old(gl.nextHandle)
      ensures gl.calls == old(gl.calls) + MatrixCalls(locations, cameraInverse.Value(), world.Value())
    {
      var modelView := new Math.Matrix4();
      modelView.MultiplyMatrices(cameraInverse, world);
      gl.Issue(GL.UniformMatrix(4, locations.modelToView, false, GL.Floats(modelView.Value())));
      gl.Issue(GL.UniformMatrix(4, locations.modelToWorld, false, GL.Floats(world.Value())));
    }

    /** `renderMesh(meshIndex, meshWorldMatrix)`: the two matrix uploads at
        the fixed locations, then the primitive loop. */
    method RenderMesh(m: nat, world: Math.Matrix4)
      requires Valid() && cameraInverse != null && world.Valid() && m < |gltf.meshes|
      modifies this, gl
      ensures Valid() && cameraInverse == old(cameraInverse) && locations == old(locations)
      ensures Extends(old(State()), State())
      ensures GL.Draws(gl.calls) == GL.Draws(old(gl.calls)) + Gltf.MeshDraws(gltf, m)
      ensures var start := old(gl.calls) + MatrixCalls(locations, cameraInverse.Value(), world.Value());
        |start| <= |gl.calls| && gl.calls[..|start|] == start
    {
      ghost var s0 := State();
      ModelMatrices(world);
      ghost var start := State();
      MatrixCallsDraws(s0, start, locations, cameraInverse.Value(), world.Value());
      var ps := gltf.meshes[m].primitives;
      Gltf.MeshPrimitivesOk(gltf, m);
      var i := 0;
      while i < |ps|
        invariant 0 <= i <= |ps|
        invariant Valid() && cameraInverse == old(cameraInverse) && locations == old(locations)
        invariant Extends(start, State())
        invariant GL.Draws(gl.calls) == GL.Draws(start.log) + Gltf.PrimitivesDraws(gltf, ps[..i])
      {
        ghost var before := State();
        RenderPrimitive(ps[i]);
        PrimitiveStepDraws(gltf, locations, before, ps[i]);
        ExtendsTransitive(start, before, State());
        Gltf.PrimitiveDrawsStep(gltf, ps, i, GL.Draws(start.log), GL.Draws(before.log), GL.Draws(gl.calls));
        i := i + 1;
      }
      assert ps[..i] == ps;
      ExtendsTransitive(s0, start, State());
    }

    /** `renderNode(nodeIndex, parentMatrix)`: the world matrix, the mesh if
        `mesh >= 0`, then the children with the world matrix as parent. */
    method RenderNode(n: nat, parent: Math.Matrix4)
      requires Valid() && cameraInverse != null && parent.Valid() && n < |gltf.nodes|
      modifies this, gl
      ensures Valid() && cameraInverse == old(cameraInverse) && locations == old(locations)
      ensures Extends(old(State()), State())
      ensures GL.Draws(gl.calls) == GL.Draws(old(gl.calls)) + Gltf.MeshSeqDraws(gltf, Gltf.NodeMeshes(gltf, rank, n))
      decreases rank[n], 1
    {
      var node := gltf.nodes[n];
      var world := Gltf.WorldMatrix(gltf, n, parent);
      ghost var s0 := State();
      if Gltf.HasMesh(node) {
        RenderMesh(node.mesh.value, world);
      }
      ghost var s1 := State();
      RenderChildren(n, world);
      ExtendsTransitive(s0, s1, State());
      Gltf.NodeDrawsEnd(gltf, rank, n, GL.Draws(s0.log), GL.Draws(s1.log), GL.Draws(gl.calls));
    }

    /** The child loop of `renderNode(n, ...)`. */
    method RenderChildren(n: nat, world: Math.Matrix4)
      requires Valid() && cameraInverse != null && world.Valid() && n < |gltf.nodes|
      modifies this, gl
      ensures Valid() && cameraInverse == old(cameraInverse) && locations == old(locations)
      ensures Extends(old(State()), State())
      ensures GL.Draws(gl.calls) ==
        GL.Draws(old(gl.calls)) + Gltf.MeshSeqDraws(gltf, Gltf.ChildMeshes(gltf, rank, Gltf.Children(gltf.nodes[n]), rank[n]))
      decreases rank[n], 0
    {
      ghost var s1 := State();
      var cs := Gltf.Children(gltf.nodes[n]);
      Gltf.ChildrenRanked(gltf, rank, n);
      var i := 0;
      while i < |cs|
        invariant 0 <= i <= |cs|
        invariant Valid() && cameraInverse == old(cameraInverse) && locations == old(locations) && world.Valid()
        invariant Extends(s1, State())
        invariant GL.Draws(gl.calls) == GL.Draws(s1.log) + Gltf.MeshSeqDraws(gltf, Gltf.ChildMeshes(gltf, rank, cs[..i], rank[n]))
      {
        ghost var before := State();
        RenderNode(cs[i], world);
        ExtendsTransitive(s1, before, State());
        Gltf.ChildDrawsStep(gltf, rank, cs, rank[n], i, GL.Draws(s1.log), GL.Draws(before.log), GL.Draws(gl.calls));
        i := i + 1;
      }
      assert cs[..i] == cs;
    }

    /** `renderScene(sceneIndex, parentMatrix)`: each root node with the same
        parent matrix, and no `useProgram`. */
    method RenderScene(sceneIndex: nat, parent: Math.Matrix4)
      requires Valid() && cameraInverse != null && parent.Valid() && sceneIndex < |gltf.scenes|
      modifies this, gl
      ensures Valid() && cameraInverse == old(cameraInverse) && locations == old(locations)
      ensures Extends(old(State()), State())
      ensures GL.Draws(gl.calls) == GL.Draws(old(gl.calls)) + Gltf.MeshSeqDraws(gltf, Gltf.SceneMeshes(gltf, rank, gltf.scenes[sceneIndex].nodes))
    {
      ghost var s0 := State();
      var roots := gltf.scenes[sceneIndex].nodes;
      var i := 0;
      assert gl.calls[|s0.log|..] == [];
      while i < |roots|
        invariant 0 <= i <= |roots|
        invariant Valid() && cameraInverse == old(cameraInverse) && locations == old(locations)
        invariant Extends(s0, State())
        invariant GL.Draws(gl.calls) == GL.Draws(s0.log) + Gltf.MeshSeqDraws(gltf, Gltf.SceneMeshes(gltf, rank, roots[..i]))
      {
        ghost var before := State();
        RenderNode(roots[i], parent);
        ExtendsTransitive(s0, before, State());
        Gltf.SceneDrawsStep(gltf, rank, roots, i, GL.Draws(s0.log), GL.Draws(before.log), GL.Draws(gl.calls));
        i := i + 1;
      }
      assert roots[..i] == roots;
    }
  }
}
