/** renderers/EquirectangularToCubeRenderer.js: the bake pass that draws a
    unit cube textured with an equirectangular HDR image, and the cube's
    vertex table. */
module CubeRenderer {
  import GL
  import Math
  import Shader
  import TextureUnits

  /** Floats per vertex in the table: position (3), normal (3), uv (2). */
  const VertexFloats: nat := 8
  /** Vertices per face: two triangles. */
  const FaceVertices: nat := 6
  /** The vertex count `renderCube` draws. */
  const CubeVertexCount: nat := 36
  /** Bytes per float of the `Float32Array`. */
  const FloatBytes: nat := 4

  /** The eight floats of one row of `cubeVertices`. */
  datatype Vertex = Vertex(x: real, y: real, z: real, nx: real, ny: real, nz: real, u: real, v: real)

  /** The row as it is laid out in the array. */
  function Floats(w: Vertex): (r: seq<real>)
    ensures |r| == VertexFloats
  {
    [w.x, w.y, w.z, w.nx, w.ny, w.nz, w.u, w.v]
  }

  /** Position component `c` (0 = x, 1 = y, 2 = z). */
  function Position(w: Vertex, c: nat): real
    requires c < 3
  {
    Floats(w)[c]
  }

  /** Normal component `c`. */
  function Normal(w: Vertex, c: nat): real
    requires c < 3
  {
    Floats(w)[3 + c]
  }

  /** The back face (lines 77-82). */
  const BackFace: seq<Vertex> := [
    Vertex( -1.0,  -1.0,  -1.0,   0.0,   0.0,  -1.0,   0.0,   0.0),
    Vertex(  1.0,   1.0,  -1.0,   0.0,   0.0,  -1.0,   1.0,   1.0),
    Vertex(  1.0,  -1.0,  -1.0,   0.0,   0.0,  -1.0,   1.0,   0.0),
    Vertex(  1.0,   1.0,  -1.0,   0.0,   0.0,  -1.0,   1.0,   1.0),
    Vertex( -1.0,  -1.0,  -1.0,   0.0,   0.0,  -1.0,   0.0,   0.0),
    Vertex( -1.0,   1.0,  -1.0,   0.0,   0.0,  -1.0,   0.0,   1.0)
  ]

  /** The front face (lines 84-89). */
  const FrontFace: seq<Vertex> := [
    Vertex( -1.0,  -1.0,   1.0,   0.0,   0.0,   1.0,   0.0,   0.0),
    Vertex(  1.0,  -1.0,   1.0,   0.0,   0.0,   1.0,   1.0,   0.0),
    Vertex(  1.0,   1.0,   1.0,   0.0,   0.0,   1.0,   1.0,   1.0),
    Vertex(  1.0,   1.0,   1.0,   0.0,   0.0,   1.0,   1.0,   1.0),
    Vertex( -1.0,   1.0,   1.0,   0.0,   0.0,   1.0,   0.0,   1.0),
    Vertex( -1.0,  -1.0,   1.0,   0.0,   0.0,   1.0,   0.0,   0.0)
  ]

  /** The left face (lines 91-96). */
  const LeftFace: seq<Vertex> := [
    Vertex( -1.0,   1.0,   1.0,  -1.0,   0.0,   0.0,   1.0,   0.0),
    Vertex( -1.0,   1.0,  -1.0,  -1.0,   0.0,   0.0,   1.0,   1.0),
    Vertex( -1.0,  -1.0,  -1.0,  -1.0,   0.0,   0.0,   0.0,   1.0),
    Vertex( -1.0,  -1.0,  -1.0,  -1.0,   0.0,   0.0,   0.0,   1.0),
    Vertex( -1.0,  -1.0,   1.0,  -1.0,   0.0,   0.0,   0.0,   0.0),
    Vertex( -1.0,   1.0,   1.0,  -1.0,   0.0,   0.0,   1.0,   0.0)
  ]

  /** The right face (lines 98-103). */
  const RightFace: seq<Vertex> := [
    Vertex(  1.0,   1.0,   1.0,   1.0,   0.0,   0.0,   1.0,   0.0),
    Vertex(  1.0,  -1.0,  -1.0,   1.0,   0.0,   0.0,   0.0,   1.0),
    Vertex(  1.0,   1.0,  -1.0,   1.0,   0.0,   0.0,   1.0,   1.0),
    Vertex(  1.0,  -1.0,  -1.0,   1.0,   0.0,   0.0,   0.0,   1.0),
    Vertex(  1.0,   1.0,   1.0,   1.0,   0.0,   0.0,   1.0,   0.0),
    Vertex(  1.0,  -1.0,   1.0,   1.0,   0.0,   0.0,   0.0,   0.0)
  ]

  /** The bottom face (lines 105-110). */
  const BottomFace: seq<Vertex> := [
    Vertex( -1.0,  -1.0,  -1.0,   0.0,  -1.0,   0.0,   0.0,   1.0),
    Vertex(  1.0,  -1.0,  -1.0,   0.0,  -1.0,   0.0,   1.0,   1.0),
    Vertex(  1.0,  -1.0,   1.0,   0.0,  -1.0,   0.0,   1.0,   0.0),
    Vertex(  1.0,  -1.0,   1.0,   0.0,  -1.0,   0.0,   1.0,   0.0),
    Vertex( -1.0,  -1.0,   1.0,   0.0,  -1.0,   0.0,   0.0,   0.0),
    Vertex( -1.0,  -1.0,  -1.0,   0.0,  -1.0,   0.0,   0.0,   1.0)
  ]

  /** The top face (lines 112-117). */
  const TopFace: seq<Vertex> := [
    Vertex( -1.0,   1.0,  -1.0,   0.0,   1.0,   0.0,   0.0,   1.0),
    Vertex(  1.0,   1.0,   1.0,   0.0,   1.0,   0.0,   1.0,   0.0),
    Vertex(  1.0,   1.0,  -1.0,   0.0,   1.0,   0.0,   1.0,   1.0),
    Vertex(  1.0,   1.0,   1.0,   0.0,   1.0,   0.0,   1.0,   0.0),
    Vertex( -1.0,   1.0,  -1.0,   0.0,   1.0,   0.0,   0.0,   1.0),
    Vertex( -1.0,   1.0,   1.0,   0.0,   1.0,   0.0,   0.0,   0.0)
  ]

  /** The rows of `cubeVertices`, face by face in the order of the source. */
  const CubeTable: seq<Vertex> := BackFace + FrontFace + LeftFace + RightFace + BottomFace + TopFace

  /** Rows laid out one after the other. */
  function Flatten(vs: seq<Vertex>): (r: seq<real>)
    ensures |r| == VertexFloats * |vs|
  {
    if vs == [] then [] else Floats(vs[0]) + Flatten(vs[1..])
  }

  /** `cubeVertices`: the flat array uploaded with `bufferData`. */
  const CubeVertices: seq<real> := Flatten(CubeTable)

  /** Float `k` of row `i` sits at index 8 i + k of the flat array. */
  lemma {:induction false} FlattenIndex(vs: seq<Vertex>, i: nat, k: nat)
    requires i < |vs| && k < VertexFloats
    ensures VertexFloats * i + k < |Flatten(vs)| && Flatten(vs)[VertexFloats * i + k] == Floats(vs[i])[k]
    decreases i
  {
    if i > 0 {
      FlattenIndex(vs[1..], i - 1, k);
    }
  }

  /** The six faces by number. */
  function Face(f: nat): (face: seq<Vertex>)
    requires f < 6
  {
    if f == 0 then BackFace else if f == 1 then FrontFace else if f == 2 then LeftFace
    else if f == 3 then RightFace else if f == 4 then BottomFace else TopFace
  }

  /** The axis face `f` is perpendicular to (0 = x, 1 = y, 2 = z). */
  function FaceAxis(f: nat): (axis: nat)
    requires f < 6
    ensures axis < 3
  {
    if f < 2 then 2 else if f < 4 then 0 else 1
  }

  /** The side of the cube face `f` lies on. */
  function FaceSign(f: nat): (sign: real)
    requires f < 6
    ensures sign == 1.0 || sign == -1.0
  {
    if f % 2 == 0 then -1.0 else 1.0
  }

  predicate UnitCoordinate(r: real)
  {
    r == 1.0 || r == -1.0
  }

  /** A corner of the cube lying on the side `sign` of `axis`, whose normal
      is the unit vector along `axis` pointing to that side. */
  predicate VertexOk(w: Vertex, axis: nat, sign: real)
    requires axis < 3
  {
    UnitCoordinate(w.x) && UnitCoordinate(w.y) && UnitCoordinate(w.z) &&
    (forall c :: 0 <= c < 3 ==> Normal(w, c) == (if c == axis then sign else 0.0)) &&
    Position(w, axis) == sign
  }

  predicate FaceOk(face: seq<Vertex>, axis: nat, sign: real)
    requires axis < 3
  {
    |face| == FaceVertices && forall j :: 0 <= j < FaceVertices ==> VertexOk(face[j], axis, sign)
  }

  lemma FacesOk(f: nat)
    requires f < 6
    ensures FaceOk(Face(f), FaceAxis(f), FaceSign(f))
  {
    forall j | 0 <= j < FaceVertices
      ensures VertexOk(Face(f)[j], FaceAxis(f), FaceSign(f))
    {
      assert j == 0 || j == 1 || j == 2 || j == 3 || j == 4 || j == 5;
    }
  }

  /** Row 6 f + j of the table is row j of face f. */
  lemma CubeTableRow(f: nat, j: nat)
    requires f < 6 && j < FaceVertices
    ensures |CubeTable| == CubeVertexCount && CubeTable[FaceVertices * f + j] == Face(f)[j]
  {
  }

  /** The table holds 36 rows of 8 floats: 288 floats, exactly the bytes
      `drawArrays(TRIANGLES, 0, 36)` reads at a stride of 8 * 4 bytes. */
  lemma CubeSize()
    ensures |CubeTable| == CubeVertexCount
    ensures |CubeVertices| == 288 == CubeVertexCount * VertexFloats
    ensures FloatBytes * |CubeVertices| == CubeVertexCount * PositionConfig(GL.Null).stride
  {
  }

  /** Every vertex lies on the surface of the cube [-1, 1]³; each block of
      six consecutive vertices shares one axis-aligned unit normal, whose
      axis is the coordinate the block holds constant, with the same sign. */
  lemma CubeFaces(i: nat)
    requires i < CubeVertexCount
    ensures i < |CubeTable| && VertexOk(CubeTable[i], FaceAxis(i / FaceVertices), FaceSign(i / FaceVertices))
  {
    var f, j := i / FaceVertices, i % FaceVertices;
    FacesOk(f);
    CubeTableRow(f, j);
  }

  /** The same facts about the flat array: the three position floats of
      every vertex are ±1 and its normal is the block's. */
  lemma CubeVerticesOnSurface(i: nat, c: nat)
    requires i < CubeVertexCount && c < 3
    ensures var f := i / FaceVertices;
      UnitCoordinate(CubeVertices[VertexFloats * i + c]) &&
      CubeVertices[VertexFloats * i + 3 + c] == (if c == FaceAxis(f) then FaceSign(f) else 0.0)
  {
    CubeFaces(i);
    FlatVertexOk(CubeTable, i, c, FaceAxis(i / FaceVertices), FaceSign(i / FaceVertices));
  }

  lemma FlatVertexOk(vs: seq<Vertex>, i: nat, c: nat, axis: nat, sign: real)
    requires i < |vs| && c < 3 && axis < 3 && VertexOk(vs[i], axis, sign)
    ensures UnitCoordinate(Flatten(vs)[VertexFloats * i + c])
    ensures Flatten(vs)[VertexFloats * i + 3 + c] == (if c == axis then sign else 0.0)
  {
    FlattenIndex(vs, i, c);
    FlattenIndex(vs, i, 3 + c);
    assert Normal(vs[i], c) == Floats(vs[i])[3 + c];
  }

  /** The HDR image handed to the constructor. */
  datatype HDRImage = HDRImage(width: int, height: int, data: GL.Value)

  /** `initCube()`: upload the table to a new buffer, request the half-float
      extensions, and upload the image to a new 2D texture with
      UNPACK_FLIP_Y on, linear filtering, and UNPACK_FLIP_Y off again. */
  function InitCubeCalls(buffer: GL.Handle, texture: GL.Handle, hdr: HDRImage): seq<GL.GLCall>
  {
    [GL.Create(GL.BufferObject, buffer),
     GL.BindBuffer(GL.ARRAY_BUFFER, GL.Obj(buffer)),
     GL.BufferFloats(GL.ARRAY_BUFFER, CubeVertices, GL.STATIC_DRAW),
     GL.GetExtension("OES_texture_half_float"),
     GL.GetExtension("OES_texture_half_float_linear"),
     GL.Create(GL.TextureObject, texture),
     GL.BindTexture(GL.TEXTURE_2D, GL.Obj(texture)),
     GL.PixelStorei(GL.UNPACK_FLIP_Y_WEBGL, 1),
     GL.TexImage2DPixels(GL.TEXTURE_2D, 0, GL.RGBA, hdr.width, hdr.height, 0, GL.RGBA, GL.HALF_FLOAT_OES, hdr.data),
     GL.TexParameteri(GL.TEXTURE_2D, GL.TEXTURE_MIN_FILTER, GL.LINEAR),
     GL.TexParameteri(GL.TEXTURE_2D, GL.TEXTURE_MAG_FILTER, GL.LINEAR),
     GL.PixelStorei(GL.UNPACK_FLIP_Y_WEBGL, 0)]
  }

  /** The UNPACK_FLIP_Y_WEBGL setting after a log, starting from `initial`:
      the last store to it decides. */
  function FlipY(log: seq<GL.GLCall>, initial: bool): bool
  {
    if log == [] then initial
    else
      var last := log[|log| - 1];
      if last.PixelStorei? && last.storeName == GL.UNPACK_FLIP_Y_WEBGL then last.storeParam != 0
      else FlipY(log[..|log| - 1], initial)
  }

  /** Running a log after another starts it from the setting the first left. */
  lemma {:induction false} FlipYAppend(a: seq<GL.GLCall>, b: seq<GL.GLCall>, initial: bool)
    ensures FlipY(a + b, initial) == FlipY(b, FlipY(a, initial))
    decreases |b|
  {
    if b == [] {
      assert a + b == a;
    } else {
      var last := b[|b| - 1];
      assert (a + b)[|a + b| - 1] == last;
      assert (a + b)[..|a + b| - 1] == a + b[..|b| - 1];
      FlipYAppend(a, b[..|b| - 1], initial);
    }
  }

  /** The image is uploaded while UNPACK_FLIP_Y is on; whatever came before,
      `initCube` leaves it off. */
  lemma InitCubeFlipY(log: seq<GL.GLCall>, buffer: GL.Handle, texture: GL.Handle, hdr: HDRImage, initial: bool)
    ensures var calls := InitCubeCalls(buffer, texture, hdr);
      calls[8].TexImage2DPixels? && FlipY(log + calls[..8], initial) && !FlipY(log + calls, initial)
  {
    var calls := InitCubeCalls(buffer, texture, hdr);
    FlipYAppend(log, calls[..8], initial);
    FlipYAppend(log, calls, initial);
  }

  /** `initCube` creates the buffer and then the texture, and draws nothing. */
  lemma InitCubeShape(buffer: GL.Handle, texture: GL.Handle, hdr: HDRImage)
    ensures GL.Created(InitCubeCalls(buffer, texture, hdr)) == [buffer, texture]
    ensures GL.Draws(InitCubeCalls(buffer, texture, hdr)) == []
    ensures InitCubeCalls(buffer, texture, hdr)[2] == GL.BufferFloats(GL.ARRAY_BUFFER, CubeVertices, GL.STATIC_DRAW)
  {
    var calls := InitCubeCalls(buffer, texture, hdr);
    GL.CreatedAppend(calls[..5], calls[5..]);
    GL.CreatedAppend(calls[..1], calls[1..5]);
    GL.CreatedAppend(calls[5..6], calls[6..]);
    GL.CreatedNone(calls[1..5]);
    GL.CreatedNone(calls[6..]);
    GL.DrawsNone(calls);
    assert calls[..5] == calls[..1] + calls[1..5];
    assert calls[5..] == calls[5..6] + calls[6..];
    assert calls == calls[..5] + calls[5..];
  }

  /** The `position` attribute: three floats at the start of each 32-byte row. */
  function PositionConfig(buffer: GL.Value): (cfg: Shader.AttributeConfig)
    ensures cfg.stride == VertexFloats * FloatBytes && cfg.offset == 0 && cfg.buffer == buffer
  {
    Shader.AttributeConfig(3, GL.FLOAT, false, 8 * 4, 0, buffer)
  }

  /** The effect of `renderCube`: the allocator afterwards and the calls. */
  datatype CubeDraw = CubeDraw(after: TextureUnits.Units, calls: seq<GL.GLCall>)

  /** The calls before the uniforms: use the program and point `position`
      at the table. */
  function CubeSetup(attributes: map<string, Shader.AttributeEntry>, program: GL.Handle, buffer: GL.Handle): seq<GL.GLCall>
  {
    [GL.UseProgram(GL.Obj(program))] + Shader.SetAttributeCalls(attributes, "position", PositionConfig(GL.Obj(buffer)))
  }

  /** `renderCube(modelToView)`: reset the allocator, use the program, point
      `position` at the table, set the two uniforms and draw 36 vertices. */
  function RenderCubeEffect(uniforms: map<string, Shader.UniformEntry>, attributes: map<string, Shader.AttributeEntry>,
                            program: GL.Handle, u: TextureUnits.Units, buffer: GL.Handle, texture: GL.Handle,
                            modelToView: seq<real>): CubeDraw
  {
    var e1 := Shader.SetUniformEffect(uniforms, TextureUnits.ResetUnits(u), "modelToView", GL.Floats(modelToView));
    var e2 := Shader.SetUniformEffect(uniforms, e1.after, "equirectangularMap", GL.Obj(texture));
    CubeDraw(e2.after,
      CubeSetup(attributes, program, buffer) + e1.calls + e2.calls + [GL.DrawArrays(GL.TRIANGLES, 0, CubeVertexCount)])
  }

  /** The draw is the same whatever units earlier passes left allocated:
      `renderCube` starts from a reset allocator. */
  lemma RenderCubeIgnoresUnitsInUse(uniforms: map<string, Shader.UniformEntry>, attributes: map<string, Shader.AttributeEntry>,
                                    program: GL.Handle, u: TextureUnits.Units, v: TextureUnits.Units,
                                    buffer: GL.Handle, texture: GL.Handle, modelToView: seq<real>)
    requires u.maxUnit == v.maxUnit
    ensures RenderCubeEffect(uniforms, attributes, program, u, buffer, texture, modelToView) ==
            RenderCubeEffect(uniforms, attributes, program, v, buffer, texture, modelToView)
  {
    assert TextureUnits.ResetUnits(u) == TextureUnits.ResetUnits(v);
  }

  /** `renderCube` issues exactly one draw, of the 36 table vertices. */
  lemma RenderCubeDrawsOnce(uniforms: map<string, Shader.UniformEntry>, attributes: map<string, Shader.AttributeEntry>,
                            program: GL.Handle, u: TextureUnits.Units, buffer: GL.Handle, texture: GL.Handle,
                            modelToView: seq<real>)
    ensures var r := RenderCubeEffect(uniforms, attributes, program, u, buffer, texture, modelToView);
      GL.Draws(r.calls) == [GL.DrawArrays(GL.TRIANGLES, 0, CubeVertexCount)]
  {
    var e1 := Shader.SetUniformEffect(uniforms, TextureUnits.ResetUnits(u), "modelToView", GL.Floats(modelToView));
    var e2 := Shader.SetUniformEffect(uniforms, e1.after, "equirectangularMap", GL.Obj(texture));
    var head := CubeSetup(attributes, program, buffer);
    var last := [GL.DrawArrays(GL.TRIANGLES, 0, CubeVertexCount)];
    Shader.SetAttributeNoDraws(attributes, "position", PositionConfig(GL.Obj(buffer)));
    Shader.SetUniformNoDraws(uniforms, TextureUnits.ResetUnits(u), "modelToView", GL.Floats(modelToView));
    Shader.SetUniformNoDraws(uniforms, e1.after, "equirectangularMap", GL.Obj(texture));
    GL.DrawsAppend([GL.UseProgram(GL.Obj(program))], Shader.SetAttributeCalls(attributes, "position", PositionConfig(GL.Obj(buffer))));
    GL.DrawsAppend(head, e1.calls);
    GL.DrawsAppend(head + e1.calls, e2.calls);
    GL.DrawsAppend(head + e1.calls + e2.calls, last);
  }

  /** With a non-sampler `modelToView` and a sampler `equirectangularMap`,
      the texture always goes to unit 0 whatever was allocated before:
      activate TEXTURE0, bind it on the sampler's target, set the sampler
      to 0, then draw. */
  lemma RenderCubeBindsUnitZero(uniforms: map<string, Shader.UniformEntry>, attributes: map<string, Shader.AttributeEntry>,
                                program: GL.Handle, u: TextureUnits.Units, buffer: GL.Handle, texture: GL.Handle,
                                modelToView: seq<real>)
    requires "modelToView" !in uniforms || !Shader.KindOf(uniforms["modelToView"].uniformType).SamplerKind?
    requires "equirectangularMap" in uniforms && Shader.KindOf(uniforms["equirectangularMap"].uniformType).SamplerKind?
    ensures var r := RenderCubeEffect(uniforms, attributes, program, u, buffer, texture, modelToView);
      var sampler := uniforms["equirectangularMap"];
      var e1 := Shader.SetUniformEffect(uniforms, TextureUnits.ResetUnits(u), "modelToView", GL.Floats(modelToView));
      r.after == TextureUnits.Units(1, u.maxUnit) &&
      r.calls == CubeSetup(attributes, program, buffer) + e1.calls +
                 [GL.ActiveTexture(GL.TEXTURE0),
                  GL.BindTexture(Shader.KindOf(sampler.uniformType).target, GL.Obj(texture)),
                  GL.Uniform(GL.Uniform1i, sampler.uniformLocation, GL.Num(0.0)),
                  GL.DrawArrays(GL.TRIANGLES, 0, CubeVertexCount)]
  {
    var u0 := TextureUnits.ResetUnits(u);
    Shader.NonSamplerKeepsUnits(uniforms, u0, "modelToView", GL.Floats(modelToView));
    Shader.SamplerProtocol(uniforms, u0, "equirectangularMap", GL.Obj(texture));
  }

  lemma AppendChain(log: seq<GL.GLCall>, a: seq<GL.GLCall>, b: seq<GL.GLCall>, c: seq<GL.GLCall>, d: seq<GL.GLCall>)
    ensures log + a + b + c + d == log + (a + b + c + d)
  {
  }

  class EquirectangularToCubeMapRenderer {
    const gl: GL.Device
    const hdr: HDRImage
    const cubeShader: Shader.GLShader
    var glCubeBuffer: GL.Handle
    var glCubeTexture: GL.Handle

    ghost predicate Valid()
      reads this
    {
      cubeShader.gl == gl
    }

    /** `new EquirectangularToCubeMapRenderer(HDRTexture)`: compile the
        shader, then `initCube()`. */
    constructor (gl: GL.Device, units: TextureUnits.Allocator, hdr: HDRImage,
                 vert: string, frag: string, q: Shader.ProgramQueries)
      requires |q.uniformLocations| == |q.activeUniforms|
      modifies gl
      ensures Valid() && this.gl == gl && this.hdr == hdr && fresh(cubeShader) && cubeShader.units == units
      ensures cubeShader.uniformInfo == Shader.UniformTable(q.activeUniforms, q.uniformLocations)
      ensures cubeShader.attributeInfo == Shader.AttributeTable(q.activeAttributes)
      ensures glCubeBuffer == cubeShader.glProg + 3 && glCubeTexture == glCubeBuffer + 1
      ensures gl.calls == old(gl.calls) + Shader.CompileCalls(cubeShader.glProg, vert, frag) +
                          InitCubeCalls(glCubeBuffer, glCubeTexture, hdr)
    {
      this.gl := gl;
      this.hdr := hdr;
      cubeShader := new Shader.GLShader(gl, units, vert, frag, q);
      new;
      InitCube();
    }

    method InitCube()
      modifies this, gl
      ensures glCubeBuffer == old(gl.nextHandle) && glCubeTexture == glCubeBuffer + 1 && gl.nextHandle == glCubeTexture + 1
      ensures gl.calls == old(gl.calls) + InitCubeCalls(glCubeBuffer, glCubeTexture, hdr)
    {
      var buffer := gl.CreateObject(GL.BufferObject);
      gl.Issue(GL.BindBuffer(GL.ARRAY_BUFFER, GL.Obj(buffer)));
      gl.Issue(GL.BufferFloats(GL.ARRAY_BUFFER, CubeVertices, GL.STATIC_DRAW));
      glCubeBuffer := buffer;
      gl.Issue(GL.GetExtension("OES_texture_half_float"));
      gl.Issue(GL.GetExtension("OES_texture_half_float_linear"));
      var texture := gl.CreateObject(GL.TextureObject);
      gl.IssueAll([GL.BindTexture(GL.TEXTURE_2D, GL.Obj(texture)),
                   GL.PixelStorei(GL.UNPACK_FLIP_Y_WEBGL, 1),
                   GL.TexImage2DPixels(GL.TEXTURE_2D, 0, GL.RGBA, hdr.width, hdr.height, 0, GL.RGBA, GL.HALF_FLOAT_OES, hdr.data),
                   GL.TexParameteri(GL.TEXTURE_2D, GL.TEXTURE_MIN_FILTER, GL.LINEAR),
                   GL.TexParameteri(GL.TEXTURE_2D, GL.TEXTURE_MAG_FILTER, GL.LINEAR),
                   GL.PixelStorei(GL.UNPACK_FLIP_Y_WEBGL, 0)]);
      glCubeTexture := texture;
    }

    method RenderCube(modelToView: Math.Matrix4)
      requires Valid() && modelToView.Valid()
      modifies gl, cubeShader.units
      ensures var r := RenderCubeEffect(cubeShader.uniformInfo, cubeShader.attributeInfo, cubeShader.glProg,
                                        old(cubeShader.units.State()), glCubeBuffer, glCubeTexture, old(modelToView.Value()));
        gl.calls == old(gl.calls) + r.calls && cubeShader.units.State() == r.after
    {
      ghost var log := gl.calls;
      ghost var u := cubeShader.units.State();
      ghost var u0 := TextureUnits.ResetUnits(u);
      ghost var info := cubeShader.uniformInfo;
      ghost var mv := modelToView.Value();
      ghost var setup := CubeSetup(cubeShader.attributeInfo, cubeShader.glProg, glCubeBuffer);
      cubeShader.units.Reset();
      cubeShader.Use();
      var _ := cubeShader.SetAttribute("position", PositionConfig(GL.Obj(glCubeBuffer)));
      assert gl.calls == log + setup;
      ghost var e1 := Shader.SetUniformEffect(info, u0, "modelToView", GL.Floats(mv));
      var _, _ := cubeShader.SetUniform("modelToView", GL.Floats(modelToView.Value()));
      assert cubeShader.units.State() == e1.after;
      ghost var e2 := Shader.SetUniformEffect(info, e1.after, "equirectangularMap", GL.Obj(glCubeTexture));
      var _, _ := cubeShader.SetUniform("equirectangularMap", GL.Obj(glCubeTexture));
      ghost var draw := [GL.DrawArrays(GL.TRIANGLES, 0, CubeVertexCount)];
      gl.Issue(GL.DrawArrays(GL.TRIANGLES, 0, CubeVertexCount));
      assert gl.calls == log + setup + e1.calls + e2.calls + draw;
      assert RenderCubeEffect(info, cubeShader.attributeInfo, cubeShader.glProg, u, glCubeBuffer, glCubeTexture, mv) ==
             CubeDraw(e2.after, setup + e1.calls + e2.calls + draw);
      AppendChain(log, setup, e1.calls, e2.calls, draw);
    }
  }
}
