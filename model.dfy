/** Rasterizer meshes (`Model`): vertex de-duplication over the loaded
    shapes, and upload of the vertex and index arrays through staging
    buffers. Vertices are of an abstract type with equality; the loader's
    per-entry vertex construction is the function `construct`. */
module Models {
  import opened Wrappers
  import opened Vulkan
  import Devices
  import Buffers
  import Bytes

  // ---------------------------------------------------------------------
  // Specification of the de-duplication

  /** The vertices an index list yields, in order. */
  function Constructed<I, V>(entries: seq<I>, construct: I -> V): (r: seq<V>)
    ensures |r| == |entries|
    ensures forall k :: 0 <= k < |entries| ==> r[k] == construct(entries[k])
  {
    seq(|entries|, k requires 0 <= k < |entries| => construct(entries[k]))
  }

  /** The number of index entries over all shapes. */
  function EntryCount<I>(shapes: seq<seq<I>>): nat
    decreases |shapes|
  {
    if |shapes| == 0 then 0 else EntryCount(shapes[..|shapes| - 1]) + |shapes[|shapes| - 1]|
  }

  /** The vertices of every index entry of every shape, shape by shape. */
  function Flatten<I, V>(shapes: seq<seq<I>>, construct: I -> V): (r: seq<V>)
    ensures |r| == EntryCount(shapes)
    decreases |shapes|
  {
    if |shapes| == 0 then []
    else Flatten(shapes[..|shapes| - 1], construct) + Constructed(shapes[|shapes| - 1], construct)
  }

  /** The distinct elements of `s` in the order they first occur. */
  function UniqueInOrder<V(==,!new)>(s: seq<V>): (r: seq<V>)
    ensures forall v :: v in r <==> v in s
    ensures forall i, j :: 0 <= i < j < |r| ==> r[i] != r[j]
    ensures |r| <= |s|
    decreases |s|
  {
    if |s| == 0 then []
    else
      var front := UniqueInOrder(s[..|s| - 1]);
      if s[|s| - 1] in front then front else front + [s[|s| - 1]]
  }

  /** The position of the first occurrence of `v` in `s`. */
  function IndexOf<V(==,!new)>(s: seq<V>, v: V): (i: nat)
    requires v in s
    ensures i < |s| && s[i] == v
    ensures forall j :: 0 <= j < i ==> s[j] != v
  {
    if s[0] == v then 0 else 1 + IndexOf(s[1..], v)
  }

  lemma IndexOfAppend<V(!new)>(s: seq<V>, w: V, v: V)
    requires v in s
    ensures IndexOf(s + [w], v) == IndexOf(s, v)
  {
    assert (s + [w])[IndexOf(s, v)] == v;
  }

  /** The vertex array `Model` builds: each distinct vertex once. */
  function MeshVertices<V(==,!new)>(flat: seq<V>): seq<V> {
    UniqueInOrder(flat)
  }

  /** The index array `Model` builds: for each entry, the (32-bit) position
      of its vertex in the vertex array. */
  function MeshIndices<V(==,!new)>(flat: seq<V>): (r: seq<U32>)
    ensures |r| == |flat|
  {
    var vertices := MeshVertices(flat);
    seq(|flat|, k requires 0 <= k < |flat| => ToU32(IndexOf(vertices, flat[k])))
  }

  /** The index array resolves every entry to its own vertex, as long as
      the positions fit the 32-bit indices. */
  lemma MeshIndicesResolve<V(!new)>(flat: seq<V>)
    requires |MeshVertices(flat)| <= TWO_32
    ensures forall k :: 0 <= k < |flat| ==>
              MeshIndices(flat)[k] < |MeshVertices(flat)| && MeshVertices(flat)[MeshIndices(flat)[k]] == flat[k]
  {
  }

  /** Vertices appear in the order of their first occurrence among the
      entries. */
  lemma {:induction false} MeshVerticesFirstOccurrenceOrder<V(!new)>(flat: seq<V>, i: nat, j: nat)
    requires i < j < |MeshVertices(flat)|
    ensures IndexOf(flat, MeshVertices(flat)[i]) < IndexOf(flat, MeshVertices(flat)[j])
    decreases |flat|
  {
    var front := flat[..|flat| - 1];
    var last := flat[|flat| - 1];
    var r := MeshVertices(flat);
    var u := UniqueInOrder(front);
    assert r == u || r == u + [last];
    if j < |u| {
      assert r[i] == u[i] && r[j] == u[j];
      MeshVerticesFirstOccurrenceOrder(front, i, j);
      IndexOfPrefix(front, last, r[i]);
      IndexOfPrefix(front, last, r[j]);
      assert front + [last] == flat;
    } else {
      assert r == u + [last] && r[j] == last && r[i] == u[i];
      IndexOfPrefix(front, last, r[i]);
      assert last !in front;
      assert front + [last] == flat;
      assert IndexOf(flat, last) == |front|;
    }
  }

  lemma IndexOfPrefix<V(!new)>(front: seq<V>, last: V, v: V)
    requires v in front
    ensures IndexOf(front + [last], v) == IndexOf(front, v) < |front|
  {
    IndexOfAppend(front, last, v);
  }

  // ---------------------------------------------------------------------
  // The loops

  /** What the de-duplication loop keeps true after the entries `seen`:
      the vertex array is their distinct vertices in first-occurrence order,
      each index is the position of its entry's vertex, and the map knows
      exactly the vertices already added, with their positions. */
  ghost predicate Indexed<V(!new)>(seen: seq<V>, vertices: seq<V>, indices: seq<U32>, known: map<V, U32>) {
    vertices == UniqueInOrder(seen) && IndicesIndex(seen, vertices, indices) && KnownIndex(vertices, known)
  }

  /** Each index is the position of its entry's vertex. */
  ghost predicate IndicesIndex<V(!new)>(seen: seq<V>, vertices: seq<V>, indices: seq<U32>) {
    |indices| == |seen|
    && (forall k :: 0 <= k < |seen| ==> seen[k] in vertices)
    && (forall k :: 0 <= k < |indices| ==> indices[k] == ToU32(IndexOf(vertices, seen[k])))
  }

  /** The map knows exactly the vertices, with their positions. */
  ghost predicate KnownIndex<V(!new)>(vertices: seq<V>, known: map<V, U32>) {
    (forall v :: v in known <==> v in vertices)
    && (forall v :: v in known ==> known[v] == ToU32(IndexOf(vertices, v)))
  }

  /** One entry of the inner loop keeps `Indexed`: an entry whose vertex is
      known reuses its index. */
  lemma AddKnownEntry<V(!new)>(seen: seq<V>, vertices: seq<V>, indices: seq<U32>, known: map<V, U32>, vertex: V)
    requires Indexed(seen, vertices, indices, known) && vertex in known
    ensures Indexed(seen + [vertex], vertices, indices + [known[vertex]], known)
  {
    var seen', indices' := seen + [vertex], indices + [known[vertex]];
    assert seen'[..|seen|] == seen;
    assert UniqueInOrder(seen') == vertices;
    forall k | 0 <= k < |indices'|
      ensures indices'[k] == ToU32(IndexOf(vertices, seen'[k]))
    {
      if k < |indices| {
        assert indices'[k] == indices[k] && seen'[k] == seen[k];
      }
    }
  }

  /** An entry whose vertex is new appends it and indexes its position. */
  lemma AddNewEntry<V(!new)>(seen: seq<V>, vertices: seq<V>, indices: seq<U32>, known: map<V, U32>, vertex: V)
    requires Indexed(seen, vertices, indices, known) && vertex !in known
    ensures Indexed(seen + [vertex], vertices + [vertex], indices + [ToU32(|vertices|)], known[vertex := ToU32(|vertices|)])
  {
    var seen' := seen + [vertex];
    assert seen'[..|seen|] == seen;
    assert UniqueInOrder(seen') == vertices + [vertex];
    NewEntryIndices(seen, vertices, indices, vertex);
    NewEntryKnown(vertices, known, vertex);
  }

  /** The indices after a new entry: the old ones keep their positions and
      the new one is the end of the old vertex array. */
  lemma NewEntryIndices<V(!new)>(seen: seq<V>, vertices: seq<V>, indices: seq<U32>, vertex: V)
    requires IndicesIndex(seen, vertices, indices) && vertex !in vertices
    ensures IndicesIndex(seen + [vertex], vertices + [vertex], indices + [ToU32(|vertices|)])
  {
    var seen', vertices', indices' := seen + [vertex], vertices + [vertex], indices + [ToU32(|vertices|)];
    assert IndexOf(vertices', vertex) == |vertices|;
    forall k | 0 <= k < |indices'|
      ensures seen'[k] in vertices' && indices'[k] == ToU32(IndexOf(vertices', seen'[k]))
    {
      if k < |indices| {
        assert indices'[k] == indices[k] && seen'[k] == seen[k];
        IndexOfAppend(vertices, vertex, seen[k]);
      }
    }
  }

  /** The map after a new entry: the new vertex at the end of the old
      vertex array, the others where they were. */
  lemma NewEntryKnown<V(!new)>(vertices: seq<V>, known: map<V, U32>, vertex: V)
    requires KnownIndex(vertices, known) && vertex !in known
    ensures KnownIndex(vertices + [vertex], known[vertex := ToU32(|vertices|)])
  {
    var vertices', known' := vertices + [vertex], known[vertex := ToU32(|vertices|)];
    assert IndexOf(vertices', vertex) == |vertices|;
    forall v | v in known'
      ensures known'[v] == ToU32(IndexOf(vertices', v))
    {
      if v != vertex {
        IndexOfAppend(vertices, vertex, v);
      }
    }
  }

  /** Once every entry is processed, the arrays are the specified ones. */
  lemma IndexedIsMesh<V(!new)>(seen: seq<V>, vertices: seq<V>, indices: seq<U32>, known: map<V, U32>)
    requires Indexed(seen, vertices, indices, known)
    ensures vertices == MeshVertices(seen) && indices == MeshIndices(seen)
  {
    var spec := MeshIndices(seen);
    assert |spec| == |indices|;
    forall k | 0 <= k < |indices|
      ensures indices[k] == spec[k]
    {
    }
  }

  /** One more entry appends its vertex, after whatever came before. */
  lemma ConstructedStep<I, V>(before: seq<V>, entries: seq<I>, construct: I -> V, n: nat)
    requires n < |entries|
    ensures before + Constructed(entries[..n + 1], construct) == before + Constructed(entries[..n], construct) + [construct(entries[n])]
  {
    var longer, shorter := Constructed(entries[..n + 1], construct), Constructed(entries[..n], construct);
    assert |longer| == |shorter| + 1;
    forall k | 0 <= k < |longer|
      ensures longer[k] == (shorter + [construct(entries[n])])[k]
    {
      if k < n {
        assert entries[..n + 1][k] == entries[..n][k];
      }
    }
    assert longer == shorter + [construct(entries[n])];
  }

  lemma FlattenStep<I, V>(shapes: seq<seq<I>>, construct: I -> V, si: nat)
    requires si < |shapes|
    ensures Flatten(shapes[..si + 1], construct) == Flatten(shapes[..si], construct) + Constructed(shapes[si], construct)
  {
    var prefix := shapes[..si + 1];
    assert prefix[..|prefix| - 1] == shapes[..si];
    assert prefix[|prefix| - 1] == shapes[si];
  }

  /** The nested loops of `Model::Model`: a map from each vertex seen so far
      to its position decides whether an entry adds a vertex. */
  method BuildIndexedMesh<I, V(==,!new)>(shapes: seq<seq<I>>, construct: I -> V) returns (vertices: seq<V>, indices: seq<U32>)
    ensures vertices == MeshVertices(Flatten(shapes, construct))
    ensures indices == MeshIndices(Flatten(shapes, construct))
  {
    var uniqueVertices: map<V, U32> := map[];
    vertices, indices := [], [];
    ghost var seen: seq<V> := [];
    var si := 0;
    while si < |shapes|
      invariant 0 <= si <= |shapes|
      invariant seen == Flatten(shapes[..si], construct)
      invariant Indexed(seen, vertices, indices, uniqueVertices)
    {
      uniqueVertices, vertices, indices, seen := IndexShape(shapes[si], construct, uniqueVertices, vertices, indices, seen);
      FlattenStep(shapes, construct, si);
      si := si + 1;
    }
    assert shapes[..si] == shapes;
    IndexedIsMesh(seen, vertices, indices, uniqueVertices);
  }

  /** The inner loop of `Model::Model`, over the index entries of one
      shape. */
  method IndexShape<I, V(==,!new)>(shape: seq<I>, construct: I -> V, known: map<V, U32>, vertices: seq<V>,
                                   indices: seq<U32>, ghost seen: seq<V>)
    returns (known': map<V, U32>, vertices': seq<V>, indices': seq<U32>, ghost seen': seq<V>)
    requires Indexed(seen, vertices, indices, known)
    ensures seen' == seen + Constructed(shape, construct)
    ensures Indexed(seen', vertices', indices', known')
  {
    known', vertices', indices', seen' := known, vertices, indices, seen;
    var ii := 0;
    while ii < |shape|
      invariant 0 <= ii <= |shape|
      invariant seen' == seen + Constructed(shape[..ii], construct)
      invariant Indexed(seen', vertices', indices', known')
    {
      var vertex := construct(shape[ii]);
      if vertex !in known' {
        AddNewEntry(seen', vertices', indices', known', vertex);
        known' := known'[vertex := ToU32(|vertices'|)];
        vertices' := vertices' + [vertex];
      } else {
        AddKnownEntry(seen', vertices', indices', known', vertex);
      }
      indices' := indices' + [known'[vertex]];
      ConstructedStep(seen, shape, construct, ii);
      seen' := seen' + [vertex];
      ii := ii + 1;
    }
    assert shape[..ii] == shape;
  }

  // ---------------------------------------------------------------------
  // Upload

  /** The staging half of an upload: a host-visible buffer holding exactly
      `bytes`, filled by its constructor or through a mapping. */
  method NewStagingBuffer(device: Devices.Device, bytes: seq<Byte>, passData: bool, driver: Buffers.BufferDriver)
    returns (r: Result<Buffers.Buffer>)
    requires device.Valid() && driver.address != 0
    modifies device
    ensures device.Valid()
    ensures device.recording == old(device.recording) && device.executed == old(device.executed)
    ensures device.calls == old(device.calls)
    ensures r.Ok? ==> fresh(r.value) && r.value.Valid() && r.value.device == device
    ensures r.Ok? ==> r.value.size == |bytes| && r.value.contents == bytes
    ensures r.Ok? ==> r.value.buffer == old(device.nextHandle) && device.nextHandle == old(device.nextHandle) + 2
  {
    var staging :- Buffers.NewBuffer(device, Buffers.Staging, |bytes|, if passData then Some(bytes) else None, driver);
    if !passData {
      staging.WriteMapped(bytes);
    }
    r := Ok(staging);
  }

  /** `createVertexBuffer` / `createIndexBuffer`: a host-visible staging
      buffer of exactly the array's size receives its bytes (through the
      constructor when `passData`, else through a mapping), a device buffer
      of the same size is created, and the staging bytes are copied into it
      before this returns. */
  method UploadThroughStaging(device: Devices.Device, t: Buffers.BufferType, bytes: seq<Byte>, passData: bool,
                              stagingDriver: Buffers.BufferDriver, targetDriver: Buffers.BufferDriver)
    returns (r: Result<Buffers.Buffer>)
    requires device.Valid()
    requires stagingDriver.address != 0 && targetDriver.address != 0
    modifies device
    ensures device.Valid()
    ensures device.recording == old(device.recording)
    ensures r.Ok? ==> fresh(r.value) && r.value.Valid() && r.value.device == device
    ensures r.Ok? ==> r.value.bufferType == t && r.value.size == |bytes| && r.value.contents == bytes
    ensures r.Ok? ==> r.value.deviceAddress == (if ShaderDeviceAddress in Buffers.Usage(t) then targetDriver.address else 0)
    ensures r.Ok? ==> var staging := old(device.nextHandle);
                      r.value.buffer == staging + 2 && device.nextHandle == staging + 5
                      && device.executed == old(device.executed) + [CopyBuffer(staging, staging + 2, BufferCopy(0, 0, |bytes|))]
                      && device.calls == old(device.calls) + Devices.OneShotCalls(device.graphicsQueue, staging + 4)
    ensures r.Err? ==> device.executed == old(device.executed) && device.calls == old(device.calls)
  {
    var staging :- NewStagingBuffer(device, bytes, passData, stagingDriver);
    r := CopyToNewBuffer(device, t, staging, targetDriver);
  }

  /** The device half of an upload: a buffer of the staging buffer's size,
      into which the whole staging buffer is copied before this returns. */
  method CopyToNewBuffer(device: Devices.Device, t: Buffers.BufferType, staging: Buffers.Buffer,
                         targetDriver: Buffers.BufferDriver)
    returns (r: Result<Buffers.Buffer>)
    requires device.Valid() && staging.Valid() && staging.device == device && targetDriver.address != 0
    modifies device
    ensures device.Valid()
    ensures device.recording == old(device.recording)
    ensures r.Ok? ==> fresh(r.value) && r.value.Valid() && r.value.device == device
    ensures r.Ok? ==> r.value.bufferType == t && r.value.size == staging.size && r.value.contents == staging.contents
    ensures r.Ok? ==> r.value.deviceAddress == (if ShaderDeviceAddress in Buffers.Usage(t) then targetDriver.address else 0)
    ensures r.Ok? ==> var h := old(device.nextHandle);
                      r.value.buffer == h && device.nextHandle == h + 3
                      && device.executed == old(device.executed) + [CopyBuffer(staging.buffer, h, BufferCopy(0, 0, staging.size))]
                      && device.calls == old(device.calls) + Devices.OneShotCalls(device.graphicsQueue, h + 2)
    ensures r.Err? ==> device.executed == old(device.executed) && device.calls == old(device.calls)
  {
    var target :- Buffers.NewBuffer(device, t, staging.size, None, targetDriver);
    target.Copy(staging, staging.size);
    r := Ok(target);
  }

  /** The vertex upload followed by the index upload. */
  method UploadMesh(device: Devices.Device, vertexBytes: seq<Byte>, indexBytes: seq<Byte>, drivers: seq<Buffers.BufferDriver>)
    returns (r: Result<(Buffers.Buffer, Buffers.Buffer)>)
    requires device.Valid()
    requires |drivers| == 4 && forall k :: 0 <= k < 4 ==> drivers[k].address != 0
    modifies device
    ensures device.Valid()
    ensures r.Ok? ==> var (vertexBuffer, indexBuffer) := r.value;
                      fresh(vertexBuffer) && fresh(indexBuffer)
                      && vertexBuffer.bufferType == Buffers.Vertex && vertexBuffer.contents == vertexBytes
                      && indexBuffer.bufferType == Buffers.Index && indexBuffer.contents == indexBytes
    ensures r.Ok? ==> var h := old(device.nextHandle);
                      device.executed == old(device.executed)
                        + [CopyBuffer(h, h + 2, BufferCopy(0, 0, |vertexBytes|)),
                           CopyBuffer(h + 5, h + 7, BufferCopy(0, 0, |indexBytes|))]
  {
    ghost var h, executed0 := device.nextHandle, device.executed;
    var vertexBuffer :- UploadThroughStaging(device, Buffers.Vertex, vertexBytes, false, drivers[0], drivers[1]);
    ghost var executed1 := device.executed;
    var indexBuffer :- UploadThroughStaging(device, Buffers.Index, indexBytes, false, drivers[2], drivers[3]);
    r := Ok((vertexBuffer, indexBuffer));
  }

  /** What `tinyobj::LoadObj` returns. */
  datatype ObjFile<I> = ObjFile(loaded: bool, warn: string, err: string, shapes: seq<seq<I>>)

  class Model {
    const device: Devices.Device
    const vertexBuffer: Buffers.Buffer
    const indexBuffer: Buffers.Buffer
    const indices: seq<U32>

    constructor (device: Devices.Device, vertexBuffer: Buffers.Buffer, indexBuffer: Buffers.Buffer, indices: seq<U32>)
      ensures this.device == device && this.vertexBuffer == vertexBuffer
      ensures this.indexBuffer == indexBuffer && this.indices == indices
    {
      this.device := device;
      this.vertexBuffer := vertexBuffer;
      this.indexBuffer := indexBuffer;
      this.indices := indices;
    }
  }

  /** `Model::Model`: a loader failure throws its warnings and errors;
      otherwise the de-duplicated vertices and the indices are uploaded to
      a vertex and an index buffer, `vertexStride` and 4 bytes per element. */
  method NewModel<I, V(==,!new)>(device: Devices.Device, file: ObjFile<I>, construct: I -> V,
                                 encodeVertex: V -> seq<Byte>, vertexStride: nat,
                                 drivers: seq<Buffers.BufferDriver>)
    returns (r: Result<Model>)
    requires device.Valid()
    requires forall v :: |encodeVertex(v)| == vertexStride
    requires |drivers| == 4 && forall k :: 0 <= k < 4 ==> drivers[k].address != 0
    modifies device
    ensures device.Valid()
    ensures !file.loaded ==> (r == Err(RuntimeError(file.warn + file.err))
                              && device.nextHandle == old(device.nextHandle) && device.calls == old(device.calls)
                              && device.executed == old(device.executed) && device.recording == old(device.recording))
    ensures r.Ok? ==> file.loaded && fresh(r.value)
    ensures r.Ok? ==> var flat := Flatten(file.shapes, construct);
                      r.value.indices == MeshIndices(flat)
                      && r.value.vertexBuffer.bufferType == Buffers.Vertex
                      && r.value.vertexBuffer.contents == Bytes.Serialize(MeshVertices(flat), encodeVertex, vertexStride)
                      && r.value.indexBuffer.bufferType == Buffers.Index
                      && r.value.indexBuffer.contents == Bytes.SerializeU32(MeshIndices(flat))
    ensures r.Ok? ==> var h := old(device.nextHandle);
                      var flat := Flatten(file.shapes, construct);
                      device.executed == old(device.executed)
                        + [CopyBuffer(h, h + 2, BufferCopy(0, 0, vertexStride * |MeshVertices(flat)|)),
                           CopyBuffer(h + 5, h + 7, BufferCopy(0, 0, 4 * |flat|))]
  {
    if !file.loaded {
      return Err(RuntimeError(file.warn + file.err));
    }
    var vertices, indices := BuildIndexedMesh(file.shapes, construct);
    var vertexBytes := Bytes.Serialize(vertices, encodeVertex, vertexStride);
    var indexBytes := Bytes.SerializeU32(indices);
    var buffers :- UploadMesh(device, vertexBytes, indexBytes, drivers);
    var (vertexBuffer, indexBuffer) := buffers;
    var model := new Model(device, vertexBuffer, indexBuffer, indices);
    r := Ok(model);
  }
}
