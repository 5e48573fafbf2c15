/** GLStates.js: a cache of the rendering context's state. Every setter
    compares its arguments with the cached value and, only when something
    differs, stores them and issues one device call. The cache is grouped
    as the source groups it: common, clear, depth, blend, misc, stencil
    and polygon state. */
module States {
  import GL
  import opened Wrappers

  /** Bindings, viewport and the (unused) texture-unit list. `activeTexture`
      is `None` while the source holds `null`. */
  datatype CommonState = CommonState(
    viewport: seq<int>, arrayBufferBinding: GL.Value, currentProgram: GL.Value,
    vertexArrayBinding: GL.Value, renderBufferBinding: GL.Value, frameBufferBinding: GL.Value,
    activeTexture: Option<int>, textureUints: seq<int>)

  datatype ClearState = ClearState(colorClearValue: seq<real>, depthClearValue: real, stencilClearValue: int)

  datatype DepthState = DepthState(depthTest: bool, depthFunc: int, depthRange: seq<real>, depthWriteMask: bool)

  /** The blend state; the source initialises it and never changes it. */
  datatype BlendState = BlendState(
    blend: bool, blendDstRGB: int, blendSrcRGB: int, blendDstAlpha: int, blendSrcAlpha: int,
    blendColor: seq<real>, blendEquationRGB: int, blendEquationDepth: int)

  datatype MiscState = MiscState(
    colorWriteMask: seq<bool>, scissorTest: bool, scissorBox: seq<int>,
    unpackAlignment: int, packAlignment: int)

  /** One face's stencil state; the source initialises it and never changes it. */
  datatype StencilFace = StencilFace(
    func: int, fail: int, passDepthFail: int, passDepthPass: int, ref: int, valueMask: int, writeMask: int)

  datatype StencilState = StencilState(stencilTest: bool, front: StencilFace, back: StencilFace)

  datatype PolygonState = PolygonState(
    cullFace: bool, cullFaceMode: int, frontFace: int, polygonOffsetFactor: real, polygonOffsetUnits: real)

  /** Everything the tracker caches, as one value. */
  datatype Cache = Cache(
    common: CommonState, clear: ClearState, depth: DepthState, blendState: BlendState,
    misc: MiscState, stencilState: StencilState, polygon: PolygonState)

  const InitialStencilFace: StencilFace := StencilFace(GL.ALWAYS, GL.KEEP, GL.KEEP, GL.KEEP, 0, 0x7f, 0x7f)

  /** The values the constructor stores. */
  const Initial: Cache := Cache(
    CommonState([0, 0, 300, 150], GL.Null, GL.Null, GL.Null, GL.Null, GL.Null, None, []),
    ClearState([0.0, 0.0, 0.0, 0.0], 1.0, 0),
    DepthState(false, GL.LESS, [0.0, 1.0], true),
    BlendState(false, GL.ZERO, GL.ONE, GL.ZERO, GL.ONE, [0.0, 0.0, 0.0, 0.0], GL.FUNC_ADD, GL.FUNC_ADD),
    MiscState([true, true, true, true], false, [0, 0, 300, 150], 4, 4),
    StencilState(false, InitialStencilFace, InitialStencilFace),
    PolygonState(false, GL.BACK, GL.CCW, 0.0, 0.0))

  // The settings, grouped as the source groups its setters.
  datatype CommonSetting =
    | SetViewport(vx: int, vy: int, vw: int, vh: int)
    | SetArrayBufferBinding(glBuffer: GL.Value)
    | SetCurrentProgram(glProgram: GL.Value)
    | SetVertexArrayBinding(vao: GL.Value)
    | SetRenderBufferBinding(glRenderBuffer: GL.Value)
    | SetFrameBufferBinding(glFrameBuffer: GL.Value)
    | SetActiveTexture(textureUint: int)

  datatype ClearSetting =
    | SetColorClearValue(cr: real, cg: real, cb: real, ca: real)
    | SetDepthClearValue(depthValue: real)
    | SetStencilClearValue(stencilValue: int)

  datatype DepthSetting =
    | SetDepthTest(depthEnable: bool)
    | SetDepthFunc(depthFuncValue: int)
    | SetDepthRange(zNear: real, zFar: real)
    | SetDepthWriteMask(maskValue: bool)

  datatype MiscSetting =
    | SetColorWriteMask(mr: bool, mg: bool, mb: bool, ma: bool)
    | SetScissorTest(scissorEnable: bool)
    | SetScissorBox(sx: int, sy: int, sw: int, sh: int)
    | SetUnpackAlignment(unpackValue: int)
    | SetPackAlignment(packValue: int)

  datatype PolygonSetting =
    | SetCullFace(cullEnable: bool)
    | SetCullFaceMode(cullModeValue: int)
    | SetFrontFace(frontFaceValue: int)
    | SetPolygonOffset(factor: real, units: real)

  /** One call of a `set*` method, with its arguments. */
  datatype Setting =
    | CommonSet(commonSetting: CommonSetting)
    | ClearSet(clearSetting: ClearSetting)
    | DepthSet(depthSetting: DepthSetting)
    | MiscSet(miscSetting: MiscSetting)
    | PolygonSet(polygonSetting: PolygonSetting)

  /** The cache already holds what the setting asks for. */
  predicate Holds(c: Cache, s: Setting)
  {
    match s
    case CommonSet(t) => HoldsCommon(c.common, t)
    case ClearSet(t) => HoldsClear(c.clear, t)
    case DepthSet(t) => HoldsDepth(c.depth, t)
    case MiscSet(t) => HoldsMisc(c.misc, t)
    case PolygonSet(t) => HoldsPolygon(c.polygon, t)
  }

  predicate HoldsCommon(g: CommonState, s: CommonSetting)
  {
    match s
    case SetViewport(x, y, w, h) => g.viewport == [x, y, w, h]
    case SetArrayBufferBinding(b) => g.arrayBufferBinding == b
    case SetCurrentProgram(p) => g.currentProgram == p
    case SetVertexArrayBinding(v) => g.vertexArrayBinding == v
    case SetRenderBufferBinding(b) => g.renderBufferBinding == b
    case SetFrameBufferBinding(b) => g.frameBufferBinding == b
    case SetActiveTexture(u) => g.activeTexture == Some(u)
  }

  predicate HoldsClear(g: ClearState, s: ClearSetting)
  {
    match s
    case SetColorClearValue(r, g0, b, a) => g.colorClearValue == [r, g0, b, a]
    case SetDepthClearValue(v) => g.depthClearValue == v
    case SetStencilClearValue(v) => g.stencilClearValue == v
  }

  predicate HoldsDepth(g: DepthState, s: DepthSetting)
  {
    match s
    case SetDepthTest(e) => g.depthTest == e
    case SetDepthFunc(v) => g.depthFunc == v
    case SetDepthRange(n, f) => g.depthRange == [n, f]
    case SetDepthWriteMask(v) => g.depthWriteMask == v
  }

  predicate HoldsMisc(g: MiscState, s: MiscSetting)
  {
    match s
    case SetColorWriteMask(r, g0, b, a) => g.colorWriteMask == [r, g0, b, a]
    case SetScissorTest(e) => g.scissorTest == e
    case SetScissorBox(x, y, w, h) => g.scissorBox == [x, y, w, h]
    case SetUnpackAlignment(v) => g.unpackAlignment == v
    case SetPackAlignment(v) => g.packAlignment == v
  }

  predicate HoldsPolygon(g: PolygonState, s: PolygonSetting)
  {
    match s
    case SetCullFace(v) => g.cullFace == v
    case SetCullFaceMode(v) => g.cullFaceMode == v
    case SetFrontFace(v) => g.frontFace == v
    case SetPolygonOffset(f, u) => g.polygonOffsetFactor == f && g.polygonOffsetUnits == u
  }

  /** The cache after storing the setting's arguments in its own field(s). */
  function Store(c: Cache, s: Setting): Cache
  {
    match s
    case CommonSet(t) => c.(common := StoreCommon(c.common, t))
    case ClearSet(t) => c.(clear := StoreClear(c.clear, t))
    case DepthSet(t) => c.(depth := StoreDepth(c.depth, t))
    case MiscSet(t) => c.(misc := StoreMisc(c.misc, t))
    case PolygonSet(t) => c.(polygon := StorePolygon(c.polygon, t))
  }

  function StoreCommon(g: CommonState, s: CommonSetting): CommonState
  {
    match s
    case SetViewport(x, y, w, h) => g.(viewport := [x, y, w, h])
    case SetArrayBufferBinding(b) => g.(arrayBufferBinding := b)
    case SetCurrentProgram(p) => g.(currentProgram := p)
    case SetVertexArrayBinding(v) => g.(vertexArrayBinding := v)
    case SetRenderBufferBinding(b) => g.(renderBufferBinding := b)
    case SetFrameBufferBinding(b) => g.(frameBufferBinding := b)
    case SetActiveTexture(u) => g.(activeTexture := Some(u))
  }

  function StoreClear(g: ClearState, s: ClearSetting): ClearState
  {
    match s
    case SetColorClearValue(r, g0, b, a) => g.(colorClearValue := [r, g0, b, a])
    case SetDepthClearValue(v) => g.(depthClearValue := v)
    case SetStencilClearValue(v) => g.(stencilClearValue := v)
  }

  function StoreDepth(g: DepthState, s: DepthSetting): DepthState
  {
    match s
    case SetDepthTest(e) => g.(depthTest := e)
    case SetDepthFunc(v) => g.(depthFunc := v)
    case SetDepthRange(n, f) => g.(depthRange := [n, f])
    case SetDepthWriteMask(v) => g.(depthWriteMask := v)
  }

  function StoreMisc(g: MiscState, s: MiscSetting): MiscState
  {
    match s
    case SetColorWriteMask(r, g0, b, a) => g.(colorWriteMask := [r, g0, b, a])
    case SetScissorTest(e) => g.(scissorTest := e)
    case SetScissorBox(x, y, w, h) => g.(scissorBox := [x, y, w, h])
    case SetUnpackAlignment(v) => g.(unpackAlignment := v)
    case SetPackAlignment(v) => g.(packAlignment := v)
  }

  function StorePolygon(g: PolygonState, s: PolygonSetting): PolygonState
  {
    match s
    case SetCullFace(v) => g.(cullFace := v)
    case SetCullFaceMode(v) => g.(cullFaceMode := v)
    case SetFrontFace(v) => g.(frontFace := v)
    case SetPolygonOffset(f, u) => g.(polygonOffsetFactor := f, polygonOffsetUnits := u)
  }

  /** The device call a setting issues when the cache differs. The viewport
      call passes the width where the x offset belongs, as the source does. */
  function Command(s: Setting): GL.GLCall
  {
    match s
    case CommonSet(t) => CommandCommon(t)
    case ClearSet(t) => CommandClear(t)
    case DepthSet(t) => CommandDepth(t)
    case MiscSet(t) => CommandMisc(t)
    case PolygonSet(t) => CommandPolygon(t)
  }

  function CommandCommon(s: CommonSetting): GL.GLCall
  {
    match s
    case SetViewport(x, y, w, h) => GL.Viewport(w, y, w, h)
    case SetArrayBufferBinding(b) => GL.BindBuffer(GL.ARRAY_BUFFER, b)
    case SetCurrentProgram(p) => GL.UseProgram(p)
    case SetVertexArrayBinding(v) => GL.VertexArrayBinding(v)
    case SetRenderBufferBinding(b) => GL.BindRenderbuffer(GL.RENDERBUFFER, b)
    case SetFrameBufferBinding(b) => GL.BindFramebuffer(GL.FRAMEBUFFER, b)
    case SetActiveTexture(u) => GL.ActiveTexture(u)
  }

  function CommandClear(s: ClearSetting): GL.GLCall
  {
    match s
    case SetColorClearValue(r, g0, b, a) => GL.ClearColor(r, g0, b, a)
    case SetDepthClearValue(v) => GL.ClearDepth(v)
    case SetStencilClearValue(v) => GL.ClearStencil(v)
  }

  function CommandDepth(s: DepthSetting): GL.GLCall
  {
    match s
    case SetDepthTest(e) => if e then GL.Enable(GL.DEPTH_TEST) else GL.Disable(GL.DEPTH_TEST)
    case SetDepthFunc(v) => GL.DepthFunc(v)
    case SetDepthRange(n, f) => GL.DepthRange(n, f)
    case SetDepthWriteMask(v) => GL.DepthMask(v)
  }

  function CommandMisc(s: MiscSetting): GL.GLCall
  {
    match s
    case SetColorWriteMask(r, g0, b, a) => GL.ColorMask(r, g0, b, a)
    case SetScissorTest(e) => if e then GL.Enable(GL.SCISSOR_TEST) else GL.Disable(GL.SCISSOR_TEST)
    case SetScissorBox(x, y, w, h) => GL.Scissor(x, y, w, h)
    case SetUnpackAlignment(v) => GL.PixelStorei(GL.UNPACK_ALIGNMENT, v)
    case SetPackAlignment(v) => GL.PixelStorei(GL.PACK_ALIGNMENT, v)
  }

  function CommandPolygon(s: PolygonSetting): GL.GLCall
  {
    match s
    case SetCullFace(v) => if v then GL.Enable(GL.CULL_FACE) else GL.Disable(GL.CULL_FACE)
    case SetCullFaceMode(v) => GL.CullFace(v)
    case SetFrontFace(v) => GL.FrontFace(v)
    case SetPolygonOffset(f, u) => GL.PolygonOffset(f, u)
  }

  /** A setter: the new cache and the device calls it issues. */
  function Apply(c: Cache, s: Setting): (Cache, seq<GL.GLCall>)
  {
    if Holds(c, s) then (c, []) else (Store(c, s), [Command(s)])
  }

  /** The cache with the field(s) a setting owns blanked out: two caches
      with equal masks differ at most in those fields. */
  function Mask(c: Cache, s: Setting): Cache
  {
    match s
    case CommonSet(t) => c.(common := MaskCommon(c.common, t))
    case ClearSet(t) => c.(clear := MaskClear(c.clear, t))
    case DepthSet(t) => c.(depth := MaskDepth(c.depth, t))
    case MiscSet(t) => c.(misc := MaskMisc(c.misc, t))
    case PolygonSet(t) => c.(polygon := MaskPolygon(c.polygon, t))
  }

  function MaskCommon(g: CommonState, s: CommonSetting): CommonState
  {
    match s
    case SetViewport(_, _, _, _) => g.(viewport := [])
    case SetArrayBufferBinding(b) => g.(arrayBufferBinding := GL.Null)
    case SetCurrentProgram(p) => g.(currentProgram := GL.Null)
    case SetVertexArrayBinding(v) => g.(vertexArrayBinding := GL.Null)
    case SetRenderBufferBinding(b) => g.(renderBufferBinding := GL.Null)
    case SetFrameBufferBinding(b) => g.(frameBufferBinding := GL.Null)
    case SetActiveTexture(u) => g.(activeTexture := None)
  }

  function MaskClear(g: ClearState, s: ClearSetting): ClearState
  {
    match s
    case SetColorClearValue(r, g0, b, a) => g.(colorClearValue := [])
    case SetDepthClearValue(v) => g.(depthClearValue := 0.0)
    case SetStencilClearValue(v) => g.(stencilClearValue := 0)
  }

  function MaskDepth(g: DepthState, s: DepthSetting): DepthState
  {
    match s
    case SetDepthTest(e) => g.(depthTest := false)
    case SetDepthFunc(v) => g.(depthFunc := 0)
    case SetDepthRange(n, f) => g.(depthRange := [])
    case SetDepthWriteMask(v) => g.(depthWriteMask := false)
  }

  function MaskMisc(g: MiscState, s: MiscSetting): MiscState
  {
    match s
    case SetColorWriteMask(r, g0, b, a) => g.(colorWriteMask := [])
    case SetScissorTest(e) => g.(scissorTest := false)
    case SetScissorBox(x, y, w, h) => g.(scissorBox := [])
    case SetUnpackAlignment(v) => g.(unpackAlignment := 0)
    case SetPackAlignment(v) => g.(packAlignment := 0)
  }

  function MaskPolygon(g: PolygonState, s: PolygonSetting): PolygonState
  {
    match s
    case SetCullFace(v) => g.(cullFace := false)
    case SetCullFaceMode(v) => g.(cullFaceMode := 0)
    case SetFrontFace(v) => g.(frontFace := 0)
    case SetPolygonOffset(f, u) => g.(polygonOffsetFactor := 0.0, polygonOffsetUnits := 0.0)
  }

  /** A setter whose value is already cached changes nothing and issues no call. */
  lemma ApplyWhenCached(c: Cache, s: Setting)
    requires Holds(c, s)
    ensures Apply(c, s).0 == c && Apply(c, s).1 == []
  {
  }

  /** A setter whose value differs issues exactly its one call and afterwards
      the cache holds the new value. */
  lemma ApplyWhenDifferent(c: Cache, s: Setting)
    requires !Holds(c, s)
    ensures Apply(c, s).1 == [Command(s)]
    ensures Holds(Apply(c, s).0, s)
    ensures Apply(c, s).0 != c
  {
  }

  /** Exactly one call when the value changes, none otherwise. */
  lemma CallIffChanged(c: Cache, s: Setting)
    ensures |Apply(c, s).1| <= 1
    ensures |Apply(c, s).1| == 1 <==> !Holds(c, s)
    ensures Apply(c, s).0 == c <==> Holds(c, s)
  {
    if !Holds(c, s) {
      ApplyWhenDifferent(c, s);
    }
  }

  /** Each setter changes only its own field(s). */
  lemma NothingElseChanges(c: Cache, s: Setting)
    ensures Mask(Apply(c, s).0, s) == Mask(c, s)
  {
  }

  /** Calling a setter twice with the same arguments issues at most one
      device call, and the second call is a no-op. */
  lemma SetTwice(c: Cache, s: Setting)
    ensures var (c1, l1) := Apply(c, s);
      Apply(c1, s) == (c1, []) && |l1 + Apply(c1, s).1| <= 1
  {
    if !Holds(c, s) {
      ApplyWhenDifferent(c, s);
    }
  }

  /** Multi-component setters: one call when any component differs, and
      then all components are stored. */
  lemma MultiComponent(c: Cache, r: real, g: real, b: real, a: real, n: real, f: real)
    ensures var s := ClearSet(SetColorClearValue(r, g, b, a));
      (c.clear.colorClearValue != [r, g, b, a] ==>
        Apply(c, s).1 == [GL.ClearColor(r, g, b, a)] && Apply(c, s).0.clear.colorClearValue == [r, g, b, a])
    ensures var s := DepthSet(SetDepthRange(n, f));
      (c.depth.depthRange != [n, f] ==>
        Apply(c, s).1 == [GL.DepthRange(n, f)] && Apply(c, s).0.depth.depthRange == [n, f])
    ensures var s := PolygonSet(SetPolygonOffset(n, f));
      (c.polygon.polygonOffsetFactor != n || c.polygon.polygonOffsetUnits != f ==>
        Apply(c, s).1 == [GL.PolygonOffset(n, f)] &&
        Apply(c, s).0.polygon.polygonOffsetFactor == n && Apply(c, s).0.polygon.polygonOffsetUnits == f)
  {
  }

  /** `setViewport` caches (x, y, w, h) but passes (w, y, w, h) to the device. */
  lemma ViewportArguments(c: Cache, x: int, y: int, w: int, h: int)
    requires c.common.viewport != [x, y, w, h]
    ensures Apply(c, CommonSet(SetViewport(x, y, w, h))).0.common.viewport == [x, y, w, h]
    ensures Apply(c, CommonSet(SetViewport(x, y, w, h))).1 == [GL.Viewport(w, y, w, h)]
  {
  }

  /** The three capability setters issue `enable` for true and `disable` for
      false, each on its own capability. */
  lemma CapabilitySetters(c: Cache, e: bool)
    ensures !Holds(c, DepthSet(SetDepthTest(e))) ==>
      Apply(c, DepthSet(SetDepthTest(e))).1 == [if e then GL.Enable(GL.DEPTH_TEST) else GL.Disable(GL.DEPTH_TEST)]
    ensures !Holds(c, PolygonSet(SetCullFace(e))) ==>
      Apply(c, PolygonSet(SetCullFace(e))).1 == [if e then GL.Enable(GL.CULL_FACE) else GL.Disable(GL.CULL_FACE)]
    ensures !Holds(c, MiscSet(SetScissorTest(e))) ==>
      Apply(c, MiscSet(SetScissorTest(e))).1 == [if e then GL.Enable(GL.SCISSOR_TEST) else GL.Disable(GL.SCISSOR_TEST)]
  {
  }

  /** The tracker object, one field per cached value as in the source. The
      array-valued state (`viewport`, `colorClearValue`, `depthRange`,
      `colorWriteMask`, `scissorBox`) is kept in arrays overwritten slot by
      slot; the blend and stencil groups, which no setter touches, are one
      field each. */
  class GLStates {
    const gl: GL.Device
    const viewport: array<int>
    var arrayBufferBinding: GL.Value
    var currentProgram: GL.Value
    var vertexArrayBinding: GL.Value
    var renderBufferBinding: GL.Value
    var frameBufferBinding: GL.Value
    var activeTexture: Option<int>
    var textureUints: seq<int>
    const colorClearValue: array<real>
    var depthClearValue: real
    var stencilClearValue: int
    var depthTest: bool
    var depthFunc: int
    const depthRange: array<real>
    var depthWriteMask: bool
    var blendState: BlendState
    const colorWriteMask: array<bool>
    var scissorTest: bool
    const scissorBox: array<int>
    var unpackAlignment: int
    var packAlignment: int
    var stencilState: StencilState
    var cullFace: bool
    var cullFaceMode: int
    var frontFace: int
    var polygonOffsetFactor: real
    var polygonOffsetUnits: real

    ghost predicate Valid()
    {
      viewport.Length == 4 && scissorBox.Length == 4 && viewport != scissorBox &&
      colorClearValue.Length == 4 && depthRange.Length == 2 && colorClearValue != depthRange &&
      colorWriteMask.Length == 4
    }

    /** The contents of each cached array, read slot by slot. */
    function ViewportSeq(): seq<int>
      reads viewport
      requires Valid()
    {
      [viewport[0], viewport[1], viewport[2], viewport[3]]
    }

    function ColorClearSeq(): seq<real>
      reads colorClearValue
      requires Valid()
    {
      [colorClearValue[0], colorClearValue[1], colorClearValue[2], colorClearValue[3]]
    }

    function DepthRangeSeq(): seq<real>
      reads depthRange
      requires Valid()
    {
      [depthRange[0], depthRange[1]]
    }

    function ColorWriteMaskSeq(): seq<bool>
      reads colorWriteMask
      requires Valid()
    {
      [colorWriteMask[0], colorWriteMask[1], colorWriteMask[2], colorWriteMask[3]]
    }

    function ScissorBoxSeq(): seq<int>
      reads scissorBox
      requires Valid()
    {
      [scissorBox[0], scissorBox[1], scissorBox[2], scissorBox[3]]
    }

    /** The cached state as a value. */
    function Snapshot(): Cache
      reads this, viewport, colorClearValue, depthRange, colorWriteMask, scissorBox
      requires Valid()
    {
      Cache(
        CommonState(ViewportSeq(), arrayBufferBinding, currentProgram, vertexArrayBinding,
                    renderBufferBinding, frameBufferBinding, activeTexture, textureUints),
        ClearState(ColorClearSeq(), depthClearValue, stencilClearValue),
        DepthState(depthTest, depthFunc, DepthRangeSeq(), depthWriteMask),
        blendState,
        MiscState(ColorWriteMaskSeq(), scissorTest, ScissorBoxSeq(), unpackAlignment, packAlignment),
        stencilState,
        PolygonState(cullFace, cullFaceMode, frontFace, polygonOffsetFactor, polygonOffsetUnits))
    }

    constructor (gl: GL.Device)
      ensures this.gl == gl && Valid() && Snapshot() == Initial
      ensures fresh(viewport) && fresh(colorClearValue) && fresh(depthRange)
      ensures fresh(colorWriteMask) && fresh(scissorBox)
    {
      this.gl := gl;
      viewport := new int[4] [0, 0, 300, 150];
      arrayBufferBinding := GL.Null;
      currentProgram := GL.Null;
      vertexArrayBinding := GL.Null;
      renderBufferBinding := GL.Null;
      frameBufferBinding := GL.Null;
      activeTexture := None;
      textureUints := [];
      colorClearValue := new real[4] [0.0, 0.0, 0.0, 0.0];
      depthClearValue := 1.0;
      stencilClearValue := 0;
      depthTest := false;
      depthFunc := GL.LESS;
      depthRange := new real[2] [0.0, 1.0];
      depthWriteMask := true;
      blendState := Initial.blendState;
      colorWriteMask := new bool[4] [true, true, true, true];
      scissorTest := false;
      scissorBox := new int[4] [0, 0, 300, 150];
      unpackAlignment := 4;
      packAlignment := 4;
      stencilState := Initial.stencilState;
      cullFace := false;
      cullFaceMode := GL.BACK;
      frontFace := GL.CCW;
      polygonOffsetFactor := 0.0;
      polygonOffsetUnits := 0.0;
    }

    method SetViewport(x: int, y: int, w: int, h: int)
      requires Valid()
      modifies viewport, gl
      ensures Snapshot() == Apply(old(Snapshot()), Setting.CommonSet(CommonSetting.SetViewport(x, y, w, h))).0
      ensures gl.calls == old(gl.calls) + Apply(old(Snapshot()), Setting.CommonSet(CommonSetting.SetViewport(x, y, w, h))).1
      ensures gl.nextHandle == old(gl.nextHandle)
    {
      var current := [viewport[0], viewport[1], viewport[2], viewport[3]];
      if current != [x, y, w, h] {
        viewport[0] := x;
        viewport[1] := y;
        viewport[2] := w;
        viewport[3] := h;
        gl.Issue(GL.Viewport(w, y, w, h));
      }
    }
    method SetArrayBufferBinding(value: GL.Value)
      requires Valid()
      modifies this, gl
      ensures Snapshot() == Apply(old(Snapshot()), Setting.CommonSet(CommonSetting.SetArrayBufferBinding(value))).0
      ensures gl.calls == old(gl.calls) + Apply(old(Snapshot()), Setting.CommonSet(CommonSetting.SetArrayBufferBinding(value))).1
      ensures gl.nextHandle == old(gl.nextHandle)
    {
      if arrayBufferBinding != value {
        arrayBufferBinding := value;
        gl.Issue(GL.BindBuffer(GL.ARRAY_BUFFER, value));
      }
    }

    method SetCurrentProgram(value: GL.Value)
      requires Valid()
      modifies this, gl
      ensures Snapshot() == Apply(old(Snapshot()), Setting.CommonSet(CommonSetting.SetCurrentProgram(value))).0
      ensures gl.calls == old(gl.calls) + Apply(old(Snapshot()), Setting.CommonSet(CommonSetting.SetCurrentProgram(value))).1
      ensures gl.nextHandle == old(gl.nextHandle)
    {
      if currentProgram != value {
        currentProgram := value;
        gl.Issue(GL.UseProgram(value));
      }
    }

    method SetVertexArrayBinding(value: GL.Value)
      requires Valid()
      modifies this, gl
      ensures Snapshot() == Apply(old(Snapshot()), Setting.CommonSet(CommonSetting.SetVertexArrayBinding(value))).0
      ensures gl.calls == old(gl.calls) + Apply(old(Snapshot()), Setting.CommonSet(CommonSetting.SetVertexArrayBinding(value))).1
      ensures gl.nextHandle == old(gl.nextHandle)
    {
      if vertexArrayBinding != value {
        vertexArrayBinding := value;
        gl.Issue(GL.VertexArrayBinding(value));
      }
    }

    method SetRenderBufferBinding(value: GL.Value)
      requires Valid()
      modifies this, gl
      ensures Snapshot() == Apply(old(Snapshot()), Setting.CommonSet(CommonSetting.SetRenderBufferBinding(value))).0
      ensures gl.calls == old(gl.calls) + Apply(old(Snapshot()), Setting.CommonSet(CommonSetting.SetRenderBufferBinding(value))).1
      ensures gl.nextHandle == old(gl.nextHandle)
    {
      if renderBufferBinding != value {
        renderBufferBinding := value;
        gl.Issue(GL.BindRenderbuffer(GL.RENDERBUFFER, value));
      }
    }

    method SetFrameBufferBinding(value: GL.Value)
      requires Valid()
      modifies this, gl
      ensures Snapshot() == Apply(old(Snapshot()), Setting.CommonSet(CommonSetting.SetFrameBufferBinding(value))).0
      ensures gl.calls == old(gl.calls) + Apply(old(Snapshot()), Setting.CommonSet(CommonSetting.SetFrameBufferBinding(value))).1
      ensures gl.nextHandle == old(gl.nextHandle)
    {
      if frameBufferBinding != value {
        frameBufferBinding := value;
        gl.Issue(GL.BindFramebuffer(GL.FRAMEBUFFER, value));
      }
    }

    method SetActiveTexture(textureUint: int)
      requires Valid()
      modifies this, gl
      ensures Snapshot() == Apply(old(Snapshot()), Setting.CommonSet(CommonSetting.SetActiveTexture(textureUint))).0
      ensures gl.calls == old(gl.calls) + Apply(old(Snapshot()), Setting.CommonSet(CommonSetting.SetActiveTexture(textureUint))).1
      ensures gl.nextHandle == old(gl.nextHandle)
    {
      if activeTexture != Some(textureUint) {
        activeTexture := Some(textureUint);
        gl.Issue(GL.ActiveTexture(textureUint));
      }
    }

    method SetColorClearValue(r: real, g: real, b: real, a: real)
      requires Valid()
      modifies colorClearValue, gl
      ensures Snapshot() == Apply(old(Snapshot()), Setting.ClearSet(ClearSetting.SetColorClearValue(r, g, b, a))).0
      ensures gl.calls == old(gl.calls) + Apply(old(Snapshot()), Setting.ClearSet(ClearSetting.SetColorClearValue(r, g, b, a))).1
      ensures gl.nextHandle == old(gl.nextHandle)
    {
      var current := [colorClearValue[0], colorClearValue[1], colorClearValue[2], colorClearValue[3]];
      if current != [r, g, b, a] {
        colorClearValue[0] := r;
        colorClearValue[1] := g;
        colorClearValue[2] := b;
        colorClearValue[3] := a;
        gl.Issue(GL.ClearColor(r, g, b, a));
      }
    }

    method SetDepthClearValue(value: real)
      requires Valid()
      modifies this, gl
      ensures Snapshot() == Apply(old(Snapshot()), Setting.ClearSet(ClearSetting.SetDepthClearValue(value))).0
      ensures gl.calls == old(gl.calls) + Apply(old(Snapshot()), Setting.ClearSet(ClearSetting.SetDepthClearValue(value))).1
      ensures gl.nextHandle == old(gl.nextHandle)
    {
      if depthClearValue != value {
        depthClearValue := value;
        gl.Issue(GL.ClearDepth(value));
      }
    }

    method SetStencilClearValue(value: int)
      requires Valid()
      modifies this, gl
      ensures Snapshot() == Apply(old(Snapshot()), Setting.ClearSet(ClearSetting.SetStencilClearValue(value))).0
      ensures gl.calls == old(gl.calls) + Apply(old(Snapshot()), Setting.ClearSet(ClearSetting.SetStencilClearValue(value))).1
      ensures gl.nextHandle == old(gl.nextHandle)
    {
      if stencilClearValue != value {
        stencilClearValue := value;
        gl.Issue(GL.ClearStencil(value));
      }
    }

    method SetDepthTest(enable: bool)
      requires Valid()
      modifies this, gl
      ensures Snapshot() == Apply(old(Snapshot()), Setting.DepthSet(DepthSetting.SetDepthTest(enable))).0
      ensures gl.calls == old(gl.calls) + Apply(old(Snapshot()), Setting.DepthSet(DepthSetting.SetDepthTest(enable))).1
      ensures gl.nextHandle == old(gl.nextHandle)
    {
      if depthTest != enable {
        depthTest := enable;
        if enable {
          gl.Issue(GL.Enable(GL.DEPTH_TEST));
        } else {
          gl.Issue(GL.Disable(GL.DEPTH_TEST));
        }
      }
    }

    method SetDepthFunc(value: int)
      requires Valid()
      modifies this, gl
      ensures Snapshot() == Apply(old(Snapshot()), Setting.DepthSet(DepthSetting.SetDepthFunc(value))).0
      ensures gl.calls == old(gl.calls) + Apply(old(Snapshot()), Setting.DepthSet(DepthSetting.SetDepthFunc(value))).1
      ensures gl.nextHandle == old(gl.nextHandle)
    {
      if depthFunc != value {
        depthFunc := value;
        gl.Issue(GL.DepthFunc(value));
      }
    }

    method SetDepthRange(zNear: real, zFar: real)
      requires Valid()
      modifies depthRange, gl
      ensures Snapshot() == Apply(old(Snapshot()), Setting.DepthSet(DepthSetting.SetDepthRange(zNear, zFar))).0
      ensures gl.calls == old(gl.calls) + Apply(old(Snapshot()), Setting.DepthSet(DepthSetting.SetDepthRange(zNear, zFar))).1
      ensures gl.nextHandle == old(gl.nextHandle)
    {
      var current := [depthRange[0], depthRange[1]];
      if current != [zNear, zFar] {
        depthRange[0] := zNear;
        depthRange[1] := zFar;
        gl.Issue(GL.DepthRange(zNear, zFar));
      }
    }

    method SetDepthWriteMask(value: bool)
      requires Valid()
      modifies this, gl
      ensures Snapshot() == Apply(old(Snapshot()), Setting.DepthSet(DepthSetting.SetDepthWriteMask(value))).0
      ensures gl.calls == old(gl.calls) + Apply(old(Snapshot()), Setting.DepthSet(DepthSetting.SetDepthWriteMask(value))).1
      ensures gl.nextHandle == old(gl.nextHandle)
    {
      if depthWriteMask != value {
        depthWriteMask := value;
        gl.Issue(GL.DepthMask(value));
      }
    }

    method SetColorWriteMask(r: bool, g: bool, b: bool, a: bool)
      requires Valid()
      modifies colorWriteMask, gl
      ensures Snapshot() == Apply(old(Snapshot()), Setting.MiscSet(MiscSetting.SetColorWriteMask(r, g, b, a))).0
      ensures gl.calls == old(gl.calls) + Apply(old(Snapshot()), Setting.MiscSet(MiscSetting.SetColorWriteMask(r, g, b, a))).1
      ensures gl.nextHandle == old(gl.nextHandle)
    {
      var current := [colorWriteMask[0], colorWriteMask[1], colorWriteMask[2], colorWriteMask[3]];
      if current != [r, g, b, a] {
        colorWriteMask[0] := r;
        colorWriteMask[1] := g;
        colorWriteMask[2] := b;
        colorWriteMask[3] := a;
        gl.Issue(GL.ColorMask(r, g, b, a));
      }
    }

    method SetScissorTest(enable: bool)
      requires Valid()
      modifies this, gl
      ensures Snapshot() == Apply(old(Snapshot()), Setting.MiscSet(MiscSetting.SetScissorTest(enable))).0
      ensures gl.calls == old(gl.calls) + Apply(old(Snapshot()), Setting.MiscSet(MiscSetting.SetScissorTest(enable))).1
      ensures gl.nextHandle == old(gl.nextHandle)
    {
      if scissorTest != enable {
        scissorTest := enable;
        if enable {
          gl.Issue(GL.Enable(GL.SCISSOR_TEST));
        } else {
          gl.Issue(GL.Disable(GL.SCISSOR_TEST));
        }
      }
    }

    method SetScissorBox(x: int, y: int, w: int, h: int)
      requires Valid()
      modifies scissorBox, gl
      ensures Snapshot() == Apply(old(Snapshot()), Setting.MiscSet(MiscSetting.SetScissorBox(x, y, w, h))).0
      ensures gl.calls == old(gl.calls) + Apply(old(Snapshot()), Setting.MiscSet(MiscSetting.SetScissorBox(x, y, w, h))).1
      ensures gl.nextHandle == old(gl.nextHandle)
    {
      var current := [scissorBox[0], scissorBox[1], scissorBox[2], scissorBox[3]];
      if current != [x, y, w, h] {
        scissorBox[0] := x;
        scissorBox[1] := y;
        scissorBox[2] := w;
        scissorBox[3] := h;
        gl.Issue(GL.Scissor(x, y, w, h));
      }
    }

    method SetUnpackAlignment(value: int)
      requires Valid()
      modifies this, gl
      ensures Snapshot() == Apply(old(Snapshot()), Setting.MiscSet(MiscSetting.SetUnpackAlignment(value))).0
      ensures gl.calls == old(gl.calls) + Apply(old(Snapshot()), Setting.MiscSet(MiscSetting.SetUnpackAlignment(value))).1
      ensures gl.nextHandle == old(gl.nextHandle)
    {
      if unpackAlignment != value {
        unpackAlignment := value;
        gl.Issue(GL.PixelStorei(GL.UNPACK_ALIGNMENT, value));
      }
    }

    method SetPackAlignment(value: int)
      requires Valid()
      modifies this, gl
      ensures Snapshot() == Apply(old(Snapshot()), Setting.MiscSet(MiscSetting.SetPackAlignment(value))).0
      ensures gl.calls == old(gl.calls) + Apply(old(Snapshot()), Setting.MiscSet(MiscSetting.SetPackAlignment(value))).1
      ensures gl.nextHandle == old(gl.nextHandle)
    {
      if packAlignment != value {
        packAlignment := value;
        gl.Issue(GL.PixelStorei(GL.PACK_ALIGNMENT, value));
      }
    }

    method SetCullFace(enable: bool)
      requires Valid()
      modifies this, gl
      ensures Snapshot() == Apply(old(Snapshot()), Setting.PolygonSet(PolygonSetting.SetCullFace(enable))).0
      ensures gl.calls == old(gl.calls) + Apply(old(Snapshot()), Setting.PolygonSet(PolygonSetting.SetCullFace(enable))).1
      ensures gl.nextHandle == old(gl.nextHandle)
    {
      if cullFace != enable {
        cullFace := enable;
        if enable {
          gl.Issue(GL.Enable(GL.CULL_FACE));
        } else {
          gl.Issue(GL.Disable(GL.CULL_FACE));
        }
      }
    }

    method SetCullFaceMode(value: int)
      requires Valid()
      modifies this, gl
      ensures Snapshot() == Apply(old(Snapshot()), Setting.PolygonSet(PolygonSetting.SetCullFaceMode(value))).0
      ensures gl.calls == old(gl.calls) + Apply(old(Snapshot()), Setting.PolygonSet(PolygonSetting.SetCullFaceMode(value))).1
      ensures gl.nextHandle == old(gl.nextHandle)
    {
      if cullFaceMode != value {
        cullFaceMode := value;
        gl.Issue(GL.CullFace(value));
      }
    }

    method SetFrontFace(value: int)
      requires Valid()
      modifies this, gl
      ensures Snapshot() == Apply(old(Snapshot()), Setting.PolygonSet(PolygonSetting.SetFrontFace(value))).0
      ensures gl.calls == old(gl.calls) + Apply(old(Snapshot()), Setting.PolygonSet(PolygonSetting.SetFrontFace(value))).1
      ensures gl.nextHandle == old(gl.nextHandle)
    {
      if frontFace != value {
        frontFace := value;
        gl.Issue(GL.FrontFace(value));
      }
    }

    method SetPolygonOffset(factor: real, units: real)
      requires Valid()
      modifies this, gl
      ensures Snapshot() == Apply(old(Snapshot()), Setting.PolygonSet(PolygonSetting.SetPolygonOffset(factor, units))).0
      ensures gl.calls == old(gl.calls) + Apply(old(Snapshot()), Setting.PolygonSet(PolygonSetting.SetPolygonOffset(factor, units))).1
      ensures gl.nextHandle == old(gl.nextHandle)
    {
      if polygonOffsetFactor != factor || polygonOffsetUnits != units {
        polygonOffsetFactor := factor;
        polygonOffsetUnits := units;
        gl.Issue(GL.PolygonOffset(factor, units));
      }
    }
  }
}
