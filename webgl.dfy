/** WebGL seen from the CPU: a device that records every call made to it.
    Handles (programs, shaders, buffers, textures) are opaque integers handed
    out by the device; the numeric enums are those of the WebGL 1.0
    specification (and of WebGL 2.0 for the 3D and array texture targets). */
module GL {
  import opened Wrappers

  type Handle = int

  // Enums used by the core.
  const POINTS: int := 0x0000
  const TRIANGLES: int := 0x0004
  const ZERO: int := 0
  const ONE: int := 1
  const FUNC_ADD: int := 0x8006
  const CULL_FACE: int := 0x0B44
  const DEPTH_TEST: int := 0x0B71
  const SCISSOR_TEST: int := 0x0C11
  const BACK: int := 0x0405
  const CCW: int := 0x0901
  const LESS: int := 0x0201
  const ALWAYS: int := 0x0207
  const KEEP: int := 0x1E00
  const UNPACK_ALIGNMENT: int := 0x0CF5
  const PACK_ALIGNMENT: int := 0x0D05
  const UNPACK_FLIP_Y_WEBGL: int := 0x9240
  const TEXTURE_2D: int := 0x0DE1
  const TEXTURE_3D: int := 0x806F
  const TEXTURE_2D_ARRAY: int := 0x8C1A
  const TEXTURE_CUBE_MAP: int := 0x8513
  const TEXTURE0: int := 0x84C0
  const TEXTURE1: int := 0x84C1
  const ARRAY_BUFFER: int := 0x8892
  const ELEMENT_ARRAY_BUFFER: int := 0x8893
  const STATIC_DRAW: int := 0x88E4
  const RENDERBUFFER: int := 0x8D41
  const FRAMEBUFFER: int := 0x8D40
  const FLOAT: int := 0x1406
  const UNSIGNED_BYTE: int := 0x1401
  const RGBA: int := 0x1908
  const NEAREST: int := 0x2600
  const LINEAR: int := 0x2601
  const REPEAT: int := 0x2901
  const TEXTURE_MAG_FILTER: int := 0x2800
  const TEXTURE_MIN_FILTER: int := 0x2801
  const TEXTURE_WRAP_S: int := 0x2802
  const TEXTURE_WRAP_T: int := 0x2803
  const VERTEX_SHADER: int := 0x8B31
  const FRAGMENT_SHADER: int := 0x8B30
  /** `HALF_FLOAT_OES` of the `OES_texture_half_float` extension. */
  const HALF_FLOAT_OES: int := 0x8D61

  /** A JavaScript value handed to WebGL where the API accepts an object,
      `null`, a number, a boolean or an array of numbers. */
  datatype Value = Null | Obj(handle: Handle) | Num(x: real) | Flag(b: bool) | Floats(xs: seq<real>)

  /** The kinds of object `createProgram`, `createShader`, `createBuffer`
      and `createTexture` make. */
  datatype ObjectKind = ProgramObject | ShaderObject(shaderType: int) | BufferObject | TextureObject

  /** The `uniform*` entry points that take a location and one value. */
  datatype UniformFn = Uniform1f | Uniform2fv | Uniform3fv | Uniform4fv
                     | Uniform1i | Uniform2iv | Uniform3iv | Uniform4iv

  /** One call made on the rendering context, with its arguments. */
  datatype GLCall =
    | Create(kind: ObjectKind, created: Handle)
    | ShaderSource(shader: Handle, source: string)
    | CompileShader(shader: Handle)
    | AttachShader(program: Handle, attached: Handle)
    | LinkProgram(program: Handle)
    | UseProgram(useProgram: Value)
    | DeleteShader(shader: Handle)
    | BindBuffer(bufferTarget: int, buffer: Value)
    | BufferBytes(bytesTarget: int, bytes: seq<int>, bytesUsage: int)
    | BufferFloats(floatsTarget: int, floats: seq<real>, floatsUsage: int)
    | BindTexture(textureTarget: int, texture: Value)
    | ActiveTexture(unit: int)
    | TexImage2D(imageTarget: int, level: int, internalFormat: int, format: int, texelType: int, image: Value)
    | TexImage2DPixels(pixelsTarget: int, pixelsLevel: int, pixelsInternalFormat: int,
                       width: int, height: int, border: int, pixelsFormat: int, pixelsType: int, pixels: Value)
    | TexParameteri(parameterTarget: int, pname: int, param: int)
    | GenerateMipmap(mipmapTarget: int)
    | PixelStorei(storeName: int, storeParam: int)
    | GetExtension(extension: string)
    | Enable(enableCap: int)
    | Disable(disableCap: int)
    | EnableVertexAttribArray(attribIndex: int)
    | VertexAttribPointer(pointerIndex: int, size: int, componentType: int, normalized: bool, stride: int, offset: int)
    | Uniform(fn: UniformFn, location: Value, data: Value)
    | UniformMatrix(dim: nat, matrixLocation: Value, transpose: bool, matrix: Value)
    | DrawElements(drawMode: int, count: int, indexType: int, indexOffset: int)
    | DrawArrays(arraysMode: int, first: int, vertexCount: int)
    | Viewport(vx: int, vy: int, vw: int, vh: int)
    | Scissor(sx: int, sy: int, sw: int, sh: int)
    | ClearColor(r: real, g: real, b: real, a: real)
    | ClearDepth(depth: real)
    | ClearStencil(stencil: int)
    | DepthFunc(depthFunc: int)
    | DepthRange(zNear: real, zFar: real)
    | DepthMask(depthMask: bool)
    | ColorMask(maskR: bool, maskG: bool, maskB: bool, maskA: bool)
    | CullFace(cullMode: int)
    | FrontFace(frontMode: int)
    | PolygonOffset(factor: real, units: real)
    | BindRenderbuffer(renderbufferTarget: int, renderbuffer: Value)
    | BindFramebuffer(framebufferTarget: int, framebuffer: Value)
    /** `gl.vertexArrayBinding(vao)`: called by the state tracker although
        no such WebGL function exists. */
    | VertexArrayBinding(vao: Value)

  /** WebGL's conversion of an omitted numeric argument: `undefined` becomes 0. */
  function ArgOr0(v: Option<int>): (n: int)
    ensures v.Some? ==> n == v.value
    ensures v.None? ==> n == 0
  {
    match v
    case Some(x) => x
    case None => 0
  }

  /** The draw calls of a log, in order. */
  function Draws(log: seq<GLCall>): (d: seq<GLCall>)
    ensures forall i :: 0 <= i < |d| ==> d[i].DrawElements? || d[i].DrawArrays?
    ensures |d| <= |log|
  {
    if log == [] then []
    else (if log[0].DrawElements? || log[0].DrawArrays? then [log[0]] else []) + Draws(log[1..])
  }

  /** A call is among the draws exactly when the log holds it and it is a draw. */
  lemma {:induction false} DrawsMembers(log: seq<GLCall>, c: GLCall)
    ensures c in Draws(log) <==> c in log && (c.DrawElements? || c.DrawArrays?)
  {
    if log != [] {
      DrawsMembers(log[1..], c);
      assert log == [log[0]] + log[1..];
    }
  }

  /** One call is its own draw list if it is a draw, and contributes nothing
      otherwise; with `DrawsAppend` this fixes `Draws` on every log. */
  lemma DrawsSingle(c: GLCall)
    ensures Draws([c]) == if c.DrawElements? || c.DrawArrays? then [c] else []
  {
    assert [c][1..] == [];
  }

  lemma AppendAssoc<T>(a: seq<T>, b: seq<T>, c: seq<T>)
    ensures (a + b) + c == a + (b + c)
  {
  }

  /** If `a` ends with `u`, then `a + b` ends with `u + b`. */
  lemma SuffixAppend<T>(a: seq<T>, u: seq<T>, b: seq<T>, r: seq<T>, k: nat)
    requires |u| <= |a| && a[|a| - |u|..] == u && r == a + b && k == |u| + |b|
    ensures k <= |r| && r[|r| - k..] == u + b
  {
    assert r[|r| - k..] == a[|a| - |u|..] + b;
  }

  /** Drawing distributes over concatenation of logs. */
  lemma {:induction false} DrawsAppend(a: seq<GLCall>, b: seq<GLCall>)
    ensures Draws(a + b) == Draws(a) + Draws(b)
  {
    if a != [] {
      assert (a + b)[1..] == a[1..] + b;
      DrawsAppend(a[1..], b);
    } else {
      assert a + b == b;
    }
  }

  /** The objects a log created, in order. */
  function Created(log: seq<GLCall>): (hs: seq<Handle>)
    ensures |hs| <= |log|
  {
    if log == [] then []
    else (if log[0].Create? then [log[0].created] else []) + Created(log[1..])
  }

  /** A log without draw calls draws nothing. */
  lemma {:induction false} DrawsNone(log: seq<GLCall>)
    requires forall i :: 0 <= i < |log| ==> !log[i].DrawElements? && !log[i].DrawArrays?
    ensures Draws(log) == []
  {
    if log != [] {
      DrawsNone(log[1..]);
    }
  }

  lemma {:induction false} CreatedAppend(a: seq<GLCall>, b: seq<GLCall>)
    ensures Created(a + b) == Created(a) + Created(b)
  {
    if a != [] {
      assert (a + b)[1..] == a[1..] + b;
      CreatedAppend(a[1..], b);
    } else {
      assert a + b == b;
    }
  }

  /** A log without creations creates nothing. */
  lemma {:induction false} CreatedNone(log: seq<GLCall>)
    requires forall i :: 0 <= i < |log| ==> !log[i].Create?
    ensures Created(log) == []
  {
    if log != [] {
      CreatedNone(log[1..]);
    }
  }

  /** The rendering context: it appends each call to `calls` and hands out
      handles from a counter, so no two created objects share a handle. */
  class Device {
    var calls: seq<GLCall>
    var nextHandle: Handle

    constructor ()
      ensures calls == [] && nextHandle == 1
    {
      calls := [];
      nextHandle := 1;
    }

    /** Issues one call that creates nothing. */
    method Issue(c: GLCall)
      modifies this
      ensures calls == old(calls) + [c]
      ensures nextHandle == old(nextHandle)
    {
      calls := calls + [c];
    }

    /** Issues several calls that create nothing, in order. */
    method IssueAll(cs: seq<GLCall>)
      modifies this
      ensures calls == old(calls) + cs
      ensures nextHandle == old(nextHandle)
    {
      var i := 0;
      while i < |cs|
        invariant 0 <= i <= |cs|
        invariant calls == old(calls) + cs[..i]
        invariant nextHandle == old(nextHandle)
      {
        assert cs[..i + 1] == cs[..i] + [cs[i]];
        calls := calls + [cs[i]];
        i := i + 1;
      }
      assert cs[..i] == cs;
    }

    /** `createProgram`, `createShader`, `createBuffer`, `createTexture`:
        the new object gets the next handle. */
    method CreateObject(kind: ObjectKind) returns (h: Handle)
      modifies this
      ensures h == old(nextHandle) && nextHandle == h + 1
      ensures calls == old(calls) + [Create(kind, h)]
    {
      h := nextHandle;
      nextHandle := nextHandle + 1;
      calls := calls + [Create(kind, h)];
    }
  }
}
