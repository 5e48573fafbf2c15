/** GLShader.js: a compiled program with its reflection tables, and the
    type-tag dispatch that turns `setUniform(name, data)` into the matching
    `uniform*` call. The device's answers to queries (compile and link
    status, info logs, the active uniforms and attributes, uniform
    locations) are inputs; console messages become returned values. */
module Shader {
  import GL
  import TextureUnits
  import Text

  /** What `getActiveAttrib` / `getActiveUniform` report for one index. */
  datatype ActiveInfo = ActiveInfo(name: string, size: int, infoType: int)

  /** An entry of `attributeInfo`. */
  datatype AttributeEntry = AttributeEntry(attribName: string, attribType: int, attribSize: int, location: int, attribIndex: int)

  /** An entry of `uniformInfo`. */
  datatype UniformEntry = UniformEntry(uniformName: string, uniformSize: int, uniformType: int, uniformLocation: GL.Value, uniformIndex: int)

  // ---------------------------------------------------------------------
  // Reflection tables

  /** The table `getAttributeInfo` builds from the active attributes, index
      by index: a later attribute with the same name replaces an earlier one,
      and the location recorded is the loop index. */
  function AttributeTable(actives: seq<ActiveInfo>): map<string, AttributeEntry>
    decreases |actives|
  {
    if |actives| == 0 then map[]
    else
      var i := |actives| - 1;
      AttributeTable(actives[..i])[actives[i].name := AttributeEntry(actives[i].name, actives[i].infoType, actives[i].size, i, i)]
  }

  /** The table `getUniformInfo` builds; `locations[i]` is the device's answer
      to `getUniformLocation` for the name of active uniform i. */
  function UniformTable(actives: seq<ActiveInfo>, locations: seq<GL.Value>): map<string, UniformEntry>
    requires |locations| == |actives|
    decreases |actives|
  {
    if |actives| == 0 then map[]
    else
      var i := |actives| - 1;
      UniformTable(actives[..i], locations[..i])[actives[i].name :=
        UniformEntry(actives[i].name, actives[i].size, actives[i].infoType, locations[i], i)]
  }

  /** A name is in the attribute table exactly when some active attribute has
      it; its entry describes the LAST such attribute, with location equal to
      that attribute's index. */
  lemma {:induction false} AttributeTableEntries(actives: seq<ActiveInfo>)
    ensures forall name :: name in AttributeTable(actives) <==> exists i :: 0 <= i < |actives| && actives[i].name == name
    ensures forall name :: name in AttributeTable(actives) ==>
      var e := AttributeTable(actives)[name];
      0 <= e.attribIndex < |actives| && e.location == e.attribIndex &&
      actives[e.attribIndex] == ActiveInfo(name, e.attribSize, e.attribType) && e.attribName == name &&
      forall j :: e.attribIndex < j < |actives| ==> actives[j].name != name
    decreases |actives|
  {
    if |actives| > 0 {
      var i := |actives| - 1;
      var prefix := actives[..i];
      AttributeTableEntries(prefix);
      forall name | name in AttributeTable(prefix)
        ensures exists k :: 0 <= k < |actives| && actives[k].name == name
      {
        var k :| 0 <= k < |prefix| && prefix[k].name == name;
        assert actives[k].name == name;
      }
      forall name | exists k :: 0 <= k < |actives| && actives[k].name == name
        ensures name in AttributeTable(actives)
      {
        var k :| 0 <= k < |actives| && actives[k].name == name;
        if k < i {
          assert prefix[k].name == name;
        }
      }
    }
  }

  /** The same characterisation of the uniform table; the location is the
      one the device answered for that index. */
  lemma {:induction false} UniformTableEntries(actives: seq<ActiveInfo>, locations: seq<GL.Value>)
    requires |locations| == |actives|
    ensures forall name :: name in UniformTable(actives, locations) <==> exists i :: 0 <= i < |actives| && actives[i].name == name
    ensures forall name :: name in UniformTable(actives, locations) ==>
      var e := UniformTable(actives, locations)[name];
      0 <= e.uniformIndex < |actives| && e.uniformLocation == locations[e.uniformIndex] &&
      actives[e.uniformIndex] == ActiveInfo(name, e.uniformSize, e.uniformType) && e.uniformName == name &&
      forall j :: e.uniformIndex < j < |actives| ==> actives[j].name != name
    decreases |actives|
  {
    if |actives| > 0 {
      var i := |actives| - 1;
      var prefix, lprefix := actives[..i], locations[..i];
      UniformTableEntries(prefix, lprefix);
      forall name | name in UniformTable(prefix, lprefix)
        ensures exists k :: 0 <= k < |actives| && actives[k].name == name
      {
        var k :| 0 <= k < |prefix| && prefix[k].name == name;
        assert actives[k].name == name;
      }
      forall name | exists k :: 0 <= k < |actives| && actives[k].name == name
        ensures name in UniformTable(actives, locations)
      {
        var k :| 0 <= k < |actives| && actives[k].name == name;
        if k < i {
          assert prefix[k].name == name;
        }
      }
    }
  }

  /** `getAttributeInfo`: one pass over the active attributes. */
  method GetAttributeInfo(actives: seq<ActiveInfo>) returns (table: map<string, AttributeEntry>)
    ensures table == AttributeTable(actives)
  {
    table := map[];
    var i := 0;
    while i < |actives|
      invariant 0 <= i <= |actives|
      invariant table == AttributeTable(actives[..i])
    {
      var info := actives[i];
      assert actives[..i + 1][..i] == actives[..i];
      table := table[info.name := AttributeEntry(info.name, info.infoType, info.size, i, i)];
      i := i + 1;
    }
    assert actives[..i] == actives;
  }

  /** `getUniformInfo`: one pass over the active uniforms. */
  method GetUniformInfo(actives: seq<ActiveInfo>, locations: seq<GL.Value>) returns (table: map<string, UniformEntry>)
    requires |locations| == |actives|
    ensures table == UniformTable(actives, locations)
  {
    table := map[];
    var i := 0;
    while i < |actives|
      invariant 0 <= i <= |actives|
      invariant table == UniformTable(actives[..i], locations[..i])
    {
      var info := actives[i];
      assert actives[..i + 1][..i] == actives[..i];
      assert locations[..i + 1][..i] == locations[..i];
      table := table[info.name := UniformEntry(info.name, info.size, info.infoType, locations[i], i)];
      i := i + 1;
    }
    assert actives[..i] == actives && locations[..i] == locations;
  }

  // ---------------------------------------------------------------------
  // Line-numbered source for compile diagnostics

  /** Each line prefixed with its index from 0 and a colon. */
  function NumberLines(lines: seq<string>): (r: seq<string>)
    ensures |r| == |lines|
  {
    seq(|lines|, k requires 0 <= k < |lines| => Text.NatToString(k) + ":" + lines[k])
  }

  /** `formatShaderCode(code)`: split on newlines, number, join again. */
  function FormatShaderCode(code: string): string
  {
    Text.Join(NumberLines(Text.Split(code, '\n')), '\n')
  }

  /** The formatted text has as many lines as the code, and line k is the
      decimal k, a colon, and line k of the code. */
  lemma FormatShaderCodeLines(code: string)
    ensures var lines := Text.Split(code, '\n');
      var out := Text.Split(FormatShaderCode(code), '\n');
      |out| == |lines| &&
      forall k :: 0 <= k < |lines| ==> out[k] == Text.NatToString(k) + ":" + lines[k]
  {
    var lines := Text.Split(code, '\n');
    var numbered := NumberLines(lines);
    Text.SplitPiecesFree(code, '\n');
    forall k | 0 <= k < |numbered|
      ensures '\n' !in numbered[k]
    {
      var digits := Text.NatToString(k);
      assert numbered[k] == digits + ":" + lines[k];
      assert forall j :: 0 <= j < |digits| ==> digits[j] != '\n';
      assert '\n' !in lines[k];
    }
    Text.SplitJoin(numbered, '\n');
  }

  // ---------------------------------------------------------------------
  // Uniform dispatch

  /** What `setUniform` does for a type tag. */
  datatype UniformKind =
    | VectorKind(fn: GL.UniformFn)
    | MatrixKind(dim: nat)
    | SamplerKind(target: int)
    | Unsupported

  /** The `switch` of `setUniform`. Tags that share a case share an entry
      point; the UINT tags are commented out in the source and fall through
      to nothing. */
  function KindOf(t: int): UniformKind
  {
    if t == 0x1406 then VectorKind(GL.Uniform1f)
    else if t == 0x8b50 then VectorKind(GL.Uniform2fv)
    else if t == 0x8b51 then VectorKind(GL.Uniform3fv)
    else if t == 0x8b52 then VectorKind(GL.Uniform4fv)
    else if t == 0x8b5a then MatrixKind(2)
    else if t == 0x8b5b then MatrixKind(3)
    else if t == 0x8b5c then MatrixKind(4)
    else if t == 0x1404 || t == 0x8b56 then VectorKind(GL.Uniform1i)
    else if t == 0x8b53 || t == 0x8b57 then VectorKind(GL.Uniform2iv)
    else if t == 0x8b54 || t == 0x8b58 then VectorKind(GL.Uniform3iv)
    else if t == 0x8b55 || t == 0x8b59 then VectorKind(GL.Uniform4iv)
    else if t == 0x8b5e || t == 0x8d66 || t == 0x8dca || t == 0x8dd2 || t == 0x8b62 then SamplerKind(GL.TEXTURE_2D)
    else if t == 0x8b5f || t == 0x8dcb || t == 0x8dd3 then SamplerKind(GL.TEXTURE_3D)
    else if t == 0x8b60 || t == 0x8dcc || t == 0x8dd4 || t == 0x8dc5 then SamplerKind(GL.TEXTURE_CUBE_MAP)
    else if t == 0x8dc1 || t == 0x8dcf || t == 0x8dd7 || t == 0x8dc4 then SamplerKind(GL.TEXTURE_2D_ARRAY)
    else Unsupported
  }

  /** The effect of one `setUniform` call: whether the name was found (the
      "fail" message is logged otherwise), whether the allocator reported an
      overflow, the allocator afterwards, and the device calls. */
  datatype UniformEffect = UniformEffect(found: bool, reported: bool, after: TextureUnits.Units, calls: seq<GL.GLCall>)

  function SetUniformEffect(info: map<string, UniformEntry>, u: TextureUnits.Units, name: string, data: GL.Value): UniformEffect
  {
    if name !in info then UniformEffect(false, false, u, [])
    else
      var loc := info[name].uniformLocation;
      match KindOf(info[name].uniformType)
      case VectorKind(fn) => UniformEffect(true, false, u, [GL.Uniform(fn, loc, data)])
      case MatrixKind(d) => UniformEffect(true, false, u, [GL.UniformMatrix(d, loc, false, data)])
      case SamplerKind(target) =>
        var a := TextureUnits.Alloc(u);
        UniformEffect(true, a.reported, a.after,
          [GL.ActiveTexture(GL.TEXTURE0 + a.unit), GL.BindTexture(target, data), GL.Uniform(GL.Uniform1i, loc, GL.Num(a.unit as real))])
      case Unsupported => UniformEffect(true, false, u, [])
  }

  /** An unknown name issues nothing and allocates nothing. */
  lemma SetUniformMissing(info: map<string, UniformEntry>, u: TextureUnits.Units, name: string, data: GL.Value)
    requires name !in info
    ensures var e := SetUniformEffect(info, u, name, data);
      !e.found && e.calls == [] && e.after == u
  {
  }

  /** A sampler takes exactly one unit `slot`, the current counter, activates
      TEXTURE0 + slot, binds `data` on the kind's target and sets the uniform
      to slot. */
  lemma SamplerProtocol(info: map<string, UniformEntry>, u: TextureUnits.Units, name: string, data: GL.Value)
    requires name in info && KindOf(info[name].uniformType).SamplerKind?
    ensures var e := SetUniformEffect(info, u, name, data);
      var slot := u.unitUsed;
      e.found && e.after == TextureUnits.Units(slot + 1, u.maxUnit) &&
      e.reported == (slot > u.maxUnit) &&
      e.calls == [GL.ActiveTexture(GL.TEXTURE0 + slot),
                  GL.BindTexture(KindOf(info[name].uniformType).target, data),
                  GL.Uniform(GL.Uniform1i, info[name].uniformLocation, GL.Num(slot as real))]
  {
  }

  /** Every other tag leaves the allocator alone and issues at most one call. */
  lemma NonSamplerKeepsUnits(info: map<string, UniformEntry>, u: TextureUnits.Units, name: string, data: GL.Value)
    requires name !in info || !KindOf(info[name].uniformType).SamplerKind?
    ensures var e := SetUniformEffect(info, u, name, data);
      e.after == u && !e.reported && |e.calls| <= 1
  {
  }

  /** `setUniform` never draws. */
  lemma SetUniformNoDraws(info: map<string, UniformEntry>, u: TextureUnits.Units, name: string, data: GL.Value)
    ensures GL.Draws(SetUniformEffect(info, u, name, data).calls) == []
  {
    GL.DrawsNone(SetUniformEffect(info, u, name, data).calls);
  }

  /** The bind target follows the tag group. */
  lemma SamplerTargets(t: int)
    ensures KindOf(t) == SamplerKind(GL.TEXTURE_2D) <==> t in {0x8b5e, 0x8d66, 0x8dca, 0x8dd2, 0x8b62}
    ensures KindOf(t) == SamplerKind(GL.TEXTURE_3D) <==> t in {0x8b5f, 0x8dcb, 0x8dd3}
    ensures KindOf(t) == SamplerKind(GL.TEXTURE_CUBE_MAP) <==> t in {0x8b60, 0x8dcc, 0x8dd4, 0x8dc5}
    ensures KindOf(t) == SamplerKind(GL.TEXTURE_2D_ARRAY) <==> t in {0x8dc1, 0x8dcf, 0x8dd7, 0x8dc4}
    ensures KindOf(t).SamplerKind? ==> KindOf(t).target in {GL.TEXTURE_2D, GL.TEXTURE_3D, GL.TEXTURE_CUBE_MAP, GL.TEXTURE_2D_ARRAY}
  {
  }

  /** INT and BOOL share `uniform1i`, INT_VECn and BOOL_VECn share
      `uniformNiv`, and the UINT tags issue nothing. */
  lemma SharedEntryPoints()
    ensures KindOf(0x1404) == KindOf(0x8b56) == VectorKind(GL.Uniform1i)
    ensures KindOf(0x8b53) == KindOf(0x8b57) == VectorKind(GL.Uniform2iv)
    ensures KindOf(0x8b54) == KindOf(0x8b58) == VectorKind(GL.Uniform3iv)
    ensures KindOf(0x8b55) == KindOf(0x8b59) == VectorKind(GL.Uniform4iv)
    ensures KindOf(0x1405) == KindOf(0x8dc6) == KindOf(0x8dc7) == KindOf(0x8dc8) == Unsupported
  {
  }

  // ---------------------------------------------------------------------
  // Attributes

  /** The configuration `setAttribute` passes to `vertexAttribPointer`. */
  datatype AttributeConfig = AttributeConfig(size: int, cfgType: int, normalized: bool, stride: int, offset: int, buffer: GL.Value)

  /** `setAttribute(name, cfg)`: nothing for an unknown name; otherwise bind
      the buffer, enable the location and describe the layout. */
  function SetAttributeCalls(info: map<string, AttributeEntry>, name: string, cfg: AttributeConfig): seq<GL.GLCall>
  {
    if name !in info then []
    else
      var loc := info[name].location;
      [GL.BindBuffer(GL.ARRAY_BUFFER, cfg.buffer), GL.EnableVertexAttribArray(loc),
       GL.VertexAttribPointer(loc, cfg.size, cfg.cfgType, cfg.normalized, cfg.stride, cfg.offset)]
  }

  /** `setAttribute` never draws. */
  lemma SetAttributeNoDraws(info: map<string, AttributeEntry>, name: string, cfg: AttributeConfig)
    ensures GL.Draws(SetAttributeCalls(info, name, cfg)) == []
  {
    GL.DrawsNone(SetAttributeCalls(info, name, cfg));
  }

  /** With a table from `getAttributeInfo`, `setAttribute` configures the
      index of the last active attribute of that name. */
  lemma SetAttributeLocation(actives: seq<ActiveInfo>, name: string, cfg: AttributeConfig)
    ensures var calls := SetAttributeCalls(AttributeTable(actives), name, cfg);
      (calls == [] <==> forall i :: 0 <= i < |actives| ==> actives[i].name != name) &&
      (calls != [] ==>
         exists i :: 0 <= i < |actives| && actives[i].name == name &&
           (forall j :: i < j < |actives| ==> actives[j].name != name) &&
           calls == [GL.BindBuffer(GL.ARRAY_BUFFER, cfg.buffer), GL.EnableVertexAttribArray(i),
                     GL.VertexAttribPointer(i, cfg.size, cfg.cfgType, cfg.normalized, cfg.stride, cfg.offset)])
  {
    AttributeTableEntries(actives);
    if name in AttributeTable(actives) {
      var i := AttributeTable(actives)[name].attribIndex;
      assert actives[i].name == name;
    }
  }

  // ---------------------------------------------------------------------
  // Compilation

  /** The device's answers to the queries `compile` makes. */
  datatype ProgramQueries = ProgramQueries(
    vertCompiled: bool, vertLog: string, fragCompiled: bool, fragLog: string,
    linked: bool, programLog: string,
    activeUniforms: seq<ActiveInfo>, uniformLocations: seq<GL.Value>,
    activeAttributes: seq<ActiveInfo>)

  /** A `console.error` of `compile`. */
  datatype Diagnostic =
    | CompileError(infoLog: string, numberedSource: string)
    | LinkError(programLog: string)

  /** The calls `compile` makes, with program `p` and its two shaders `p + 1`
      (vertex) and `p + 2` (fragment). */
  function CompileCalls(p: GL.Handle, vert: string, frag: string): seq<GL.GLCall>
  {
    [GL.Create(GL.ProgramObject, p), GL.Create(GL.ShaderObject(GL.VERTEX_SHADER), p + 1),
     GL.Create(GL.ShaderObject(GL.FRAGMENT_SHADER), p + 2),
     GL.ShaderSource(p + 1, vert), GL.ShaderSource(p + 2, frag),
     GL.CompileShader(p + 1), GL.CompileShader(p + 2),
     GL.AttachShader(p, p + 1), GL.AttachShader(p, p + 2), GL.LinkProgram(p),
     GL.UseProgram(GL.Obj(p)), GL.DeleteShader(p + 1), GL.DeleteShader(p + 2)]
  }

  /** The errors `compile` logs, in order. */
  function CompileDiagnostics(q: ProgramQueries, vert: string, frag: string): seq<Diagnostic>
  {
    (if q.vertCompiled then [] else [CompileError(q.vertLog, FormatShaderCode(vert))]) +
    (if q.fragCompiled then [] else [CompileError(q.fragLog, FormatShaderCode(frag))]) +
    (if q.linked then [] else [LinkError(q.programLog)])
  }

  /** Nothing is logged exactly when both shaders compiled and the program
      linked; a compile error carries the numbered source of its shader. */
  lemma CompileDiagnosticsIff(q: ProgramQueries, vert: string, frag: string)
    ensures CompileDiagnostics(q, vert, frag) == [] <==> q.vertCompiled && q.fragCompiled && q.linked
    ensures |CompileDiagnostics(q, vert, frag)| ==
      (if q.vertCompiled then 0 else 1) + (if q.fragCompiled then 0 else 1) + (if q.linked then 0 else 1)
    ensures !q.vertCompiled ==> CompileDiagnostics(q, vert, frag)[0] == CompileError(q.vertLog, FormatShaderCode(vert))
  {
  }

  /** The compile sequence creates three objects, issues no draw and leaves
      its program current. */
  lemma CompileCallsShape(p: GL.Handle, vert: string, frag: string)
    ensures GL.Created(CompileCalls(p, vert, frag)) == [p, p + 1, p + 2]
    ensures GL.Draws(CompileCalls(p, vert, frag)) == []
    ensures |CompileCalls(p, vert, frag)| == 13 && CompileCalls(p, vert, frag)[10] == GL.UseProgram(GL.Obj(p))
  {
    var c := CompileCalls(p, vert, frag);
    var head, tail := c[..3], c[3..];
    assert c == head + tail;
    GL.CreatedAppend(head, tail);
    GL.DrawsAppend(head, tail);
    GL.DrawsNone(head);
    GL.DrawsNone(tail);
    GL.CreatedNone(tail);
    assert head == [c[0]] + [c[1]] + [c[2]];
    GL.CreatedAppend([c[0]] + [c[1]], [c[2]]);
    GL.CreatedAppend([c[0]], [c[1]]);
  }

  class GLShader {
    const gl: GL.Device
    const units: TextureUnits.Allocator
    const vertSource: string
    const fragSource: string
    var glProg: GL.Handle
    var uniformInfo: map<string, UniformEntry>
    var attributeInfo: map<string, AttributeEntry>
    /** The `console.error` output of the last `compile`. */
    var diagnostics: seq<Diagnostic>

    /** `new GLShader(vert, frag)`: stores the sources and compiles. */
    constructor (gl: GL.Device, units: TextureUnits.Allocator, vert: string, frag: string, q: ProgramQueries)
      requires |q.uniformLocations| == |q.activeUniforms|
      modifies gl
      ensures this.gl == gl && this.units == units && vertSource == vert && fragSource == frag
      ensures glProg == old(gl.nextHandle) && gl.nextHandle == glProg + 3
      ensures gl.calls == old(gl.calls) + CompileCalls(glProg, vert, frag)
      ensures uniformInfo == UniformTable(q.activeUniforms, q.uniformLocations)
      ensures attributeInfo == AttributeTable(q.activeAttributes)
      ensures diagnostics == CompileDiagnostics(q, vert, frag)
    {
      this.gl := gl;
      this.units := units;
      vertSource := vert;
      fragSource := frag;
      new;
      Compile(q);
    }

    /** `compile()`: create, compile, attach and link, make the program
        current, delete the shaders, and build the reflection tables. */
    method Compile(q: ProgramQueries)
      requires |q.uniformLocations| == |q.activeUniforms|
      modifies this, gl
      ensures glProg == old(gl.nextHandle) && gl.nextHandle == glProg + 3
      ensures gl.calls == old(gl.calls) + CompileCalls(glProg, vertSource, fragSource)
      ensures uniformInfo == UniformTable(q.activeUniforms, q.uniformLocations)
      ensures attributeInfo == AttributeTable(q.activeAttributes)
      ensures diagnostics == CompileDiagnostics(q, vertSource, fragSource)
    {
      var p := gl.CreateObject(GL.ProgramObject);
      var v := gl.CreateObject(GL.ShaderObject(GL.VERTEX_SHADER));
      var f := gl.CreateObject(GL.ShaderObject(GL.FRAGMENT_SHADER));
      gl.IssueAll([GL.ShaderSource(v, vertSource), GL.ShaderSource(f, fragSource),
                   GL.CompileShader(v), GL.CompileShader(f),
                   GL.AttachShader(p, v), GL.AttachShader(p, f), GL.LinkProgram(p),
                   GL.UseProgram(GL.Obj(p)), GL.DeleteShader(v), GL.DeleteShader(f)]);
      var log: seq<Diagnostic> := [];
      if !q.vertCompiled {
        log := log + [CompileError(q.vertLog, FormatShaderCode(vertSource))];
      }
      if !q.fragCompiled {
        log := log + [CompileError(q.fragLog, FormatShaderCode(fragSource))];
      }
      if !q.linked {
        log := log + [LinkError(q.programLog)];
      }
      glProg := p;
      uniformInfo := GetUniformInfo(q.activeUniforms, q.uniformLocations);
      attributeInfo := GetAttributeInfo(q.activeAttributes);
      diagnostics := log;
    }

    /** `setUniform(name, data)`. */
    method SetUniform(name: string, data: GL.Value) returns (found: bool, reported: bool)
      modifies gl, units
      ensures var e := SetUniformEffect(uniformInfo, old(units.State()), name, data);
        found == e.found && reported == e.reported && units.State() == e.after &&
        gl.calls == old(gl.calls) + e.calls
      ensures gl.nextHandle == old(gl.nextHandle)
    {
      if name !in uniformInfo {
        return false, false;
      }
      var entry := uniformInfo[name];
      var location := entry.uniformLocation;
      found, reported := true, false;
      match KindOf(entry.uniformType)
      case VectorKind(fn) =>
        gl.Issue(GL.Uniform(fn, location, data));
      case MatrixKind(d) =>
        gl.Issue(GL.UniformMatrix(d, location, false, data));
      case SamplerKind(target) =>
        var slot;
        slot, reported := units.AllocUnit();
        gl.Issue(GL.ActiveTexture(GL.TEXTURE0 + slot));
        gl.Issue(GL.BindTexture(target, data));
        gl.Issue(GL.Uniform(GL.Uniform1i, location, GL.Num(slot as real)));
      case Unsupported =>
    }

    /** `setAttribute(name, cfg)`; returns false when the name is unknown
        (the "fail" message). */
    method SetAttribute(name: string, cfg: AttributeConfig) returns (found: bool)
      modifies gl
      ensures found <==> name in attributeInfo
      ensures gl.calls == old(gl.calls) + SetAttributeCalls(attributeInfo, name, cfg)
      ensures gl.nextHandle == old(gl.nextHandle)
    {
      if name !in attributeInfo {
        return false;
      }
      var location := attributeInfo[name].location;
      gl.Issue(GL.BindBuffer(GL.ARRAY_BUFFER, cfg.buffer));
      gl.Issue(GL.EnableVertexAttribArray(location));
      gl.Issue(GL.VertexAttribPointer(location, cfg.size, cfg.cfgType, cfg.normalized, cfg.stride, cfg.offset));
      found := true;
    }

    /** `use()`: make this program current. */
    method Use()
      modifies gl
      ensures gl.calls == old(gl.calls) + [GL.UseProgram(GL.Obj(glProg))]
      ensures gl.nextHandle == old(gl.nextHandle)
    {
      gl.Issue(GL.UseProgram(GL.Obj(glProg)));
    }
  }
}
