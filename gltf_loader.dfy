/** loaders/glTFLoader.js without its I/O: the directory helper that gives
    the default resource path, the resource URLs built from it, and the
    byte-length check each fetched buffer must pass. */
module GltfLoader {
  import Text
  import Gltf
  import opened Wrappers

  /** `dirname(uri)`: when the URI contains a `.` anywhere (taken as naming
      a file) its last `/`-segment is dropped; otherwise it is split and
      joined back unchanged. */
  function Dirname(uri: string): (dir: string)
  {
    var parts := Text.Split(uri, '/');
    if '.' in uri then Text.Join(parts[..|parts| - 1], '/') else Text.Join(parts, '/')
  }

  /** Without a `.` the split and join round-trip: the URI comes back. */
  lemma DirnameUndotted(uri: string)
    requires '.' !in uri
    ensures Dirname(uri) == uri
  {
    Text.JoinSplit(uri, '/');
  }

  /** With a `.` anywhere, even in a directory name, the result is the text
      before the last `/`. */
  lemma DirnameDotted(uri: string)
    requires '.' in uri && '/' in uri
    ensures Dirname(uri) == uri[..Text.LastIndexOf(uri, '/')]
  {
    Text.JoinAllButLast(uri, '/');
  }

  /** A dotted URI without a `/` has no directory: the result is empty. */
  lemma DirnameBareFile(uri: string)
    requires '.' in uri && '/' !in uri
    ensures Dirname(uri) == ""
  {
    assert Text.Split(uri, '/') == [uri];
  }

  /** With a `.` the result is a prefix of the URI; when the URI has a `/`,
      its segments are the URI's segments without the last one. */
  lemma DirnameDropsLastSegment(uri: string)
    requires '.' in uri
    ensures Dirname(uri) <= uri
    ensures '/' in uri ==>
      var parts := Text.Split(uri, '/');
      Text.Split(Dirname(uri), '/') == parts[..|parts| - 1]
  {
    if '/' in uri {
      DirnameDotted(uri);
      var parts := Text.Split(uri, '/');
      Text.JoinAllButLast(uri, '/');
      Text.SplitPiecesFree(uri, '/');
      Text.SplitJoin(parts[..|parts| - 1], '/');
    } else {
      DirnameBareFile(uri);
    }
  }

  /** `resPath + '/' + img.uri` and `resPath + '/' + buffer.uri`. */
  function ResourcePath(resPath: string, uri: string): (path: string)
    ensures |path| == |resPath| + 1 + |uri| && path[|resPath|] == '/'
  {
    resPath + "/" + uri
  }

  /** With the default `resPath = dirname(uri)`, a resource of a glTF file
      at `dir/name.gltf` is looked up next to it: the last segment of the
      file's URI is replaced by the resource URI. */
  lemma DefaultResourceIsSibling(gltfUri: string, uri: string)
    requires '.' in gltfUri && '/' in gltfUri
    ensures var k := Text.LastIndexOf(gltfUri, '/');
      ResourcePath(Dirname(gltfUri), uri) == gltfUri[..k + 1] + uri
  {
    var k := Text.LastIndexOf(gltfUri, '/');
    DirnameDotted(gltfUri);
    var dir := gltfUri[..k];
    assert gltfUri[..k + 1] == dir + [gltfUri[k]];
    assert ResourcePath(dir, uri) == dir + "/" + uri;
  }

  /** A buffer entry of the glTF JSON before its data is fetched. */
  datatype BufferDef = BufferDef(uri: string, byteLength: int)

  /** The check on one fetched `ArrayBuffer`: a declared length other than
      the fetched one throws "byteLength unmatch"; otherwise the bytes
      become the buffer's data. */
  function AcceptBuffer(def: BufferDef, fetched: seq<int>): (r: Result<Gltf.Buffer, string>)
    ensures r.Success? <==> def.byteLength == |fetched|
    ensures r.Success? ==> r.value.data == fetched
    ensures r.Failure? ==> r.error == "byteLength unmatch"
  {
    if def.byteLength != |fetched| then Failure("byteLength unmatch") else Success(Gltf.Buffer(fetched))
  }

  /** `Promise.all` over the buffers: loading succeeds only when every
      buffer passes the check, and then yields the buffers in order.
      `fetched[i]` is what the fetch of buffer i returned. */
  function AcceptBuffers(defs: seq<BufferDef>, fetched: seq<seq<int>>): (r: Result<seq<Gltf.Buffer>, string>)
    requires |fetched| == |defs|
    ensures r.Success? <==> forall i :: 0 <= i < |defs| ==> defs[i].byteLength == |fetched[i]|
    ensures r.Success? ==> |r.value| == |defs| && forall i :: 0 <= i < |defs| ==> r.value[i].data == fetched[i]
    ensures r.Failure? ==> r.error == "byteLength unmatch"
    decreases |defs|
  {
    if defs == [] then Success([])
    else
      match AcceptBuffer(defs[0], fetched[0])
      case Failure(e) => Failure(e)
      case Success(b) =>
        match AcceptBuffers(defs[1..], fetched[1..])
        case Failure(e) => Failure(e)
        case Success(bs) =>
          assert forall i :: 1 <= i < |defs| ==> defs[i] == defs[1..][i - 1] && fetched[i] == fetched[1..][i - 1];
          Success([b] + bs)
  }
}
