/** Ray-traced meshes (`RTXModel`): one vertex and one identity index per
    mesh index entry, one face per material id, upload of the three arrays,
    and the bottom- and top-level acceleration structures with the single
    instance between them. Floats are carried as their IEEE-754 bit
    patterns (`U32`), so copying a float is copying its bits and negating it
    flips its sign bit. */
module RtxModels {
  import opened Wrappers
  import opened Vulkan
  import Devices
  import Buffers
  import Bytes
  import Models
  import AccelerationStructures
  import Sequences

  // ---------------------------------------------------------------------
  // Floats, vertices, faces

  const SIGN_BIT: nat := 0x8000_0000

  /** Unary minus on a `float`: the sign bit flips, nothing else changes. */
  function Negate(bits: U32): (r: U32)
    ensures r % SIGN_BIT == bits % SIGN_BIT
    ensures (r < SIGN_BIT) <==> (bits >= SIGN_BIT)
  {
    if bits < SIGN_BIT then bits + SIGN_BIT else bits - SIGN_BIT
  }

  /** Negation undoes itself. */
  lemma NegateInvolutive(bits: U32)
    ensures Negate(Negate(bits)) == bits
  {
  }

  const ONE_FLOAT: U32 := 0x3F80_0000

  /** `RTXModel::Vertex`: a position, three floats, 12 bytes. */
  datatype Vertex = Vertex(x: U32, y: U32, z: U32)

  const VERTEX_SIZE: nat := 12

  function EncodeVertex(v: Vertex): (r: seq<Byte>)
    ensures |r| == VERTEX_SIZE
  {
    Bytes.EncodeU32(v.x) + Bytes.EncodeU32(v.y) + Bytes.EncodeU32(v.z)
  }

  datatype Color = Color(r: U32, g: U32, b: U32)

  /** What the loader reports per material; only the two colours are read. */
  datatype Material = Material(diffuse: Color, emission: Color)

  /** `Face`: the diffuse and emitted colour, 24 bytes. */
  datatype Face = Face(diffuse: Color, emission: Color)

  const FACE_SIZE: nat := 24

  function EncodeColor(c: Color): (r: seq<Byte>)
    ensures |r| == 12
  {
    Bytes.EncodeU32(c.r) + Bytes.EncodeU32(c.g) + Bytes.EncodeU32(c.b)
  }

  function EncodeFace(f: Face): (r: seq<Byte>)
    ensures |r| == FACE_SIZE
  {
    EncodeColor(f.diffuse) + EncodeColor(f.emission)
  }

  // ---------------------------------------------------------------------
  // The loaded file

  /** One shape: the position index of each mesh index entry, and one
      material id per face. */
  datatype Shape = Shape(vertexIndices: seq<nat>, materialIds: seq<int>)

  /** What `tinyobj::LoadObj` returns: `positions` holds three floats per
      position. */
  datatype ObjFile = ObjFile(loaded: bool, warn: string, err: string,
                             positions: seq<U32>, shapes: seq<Shape>, materials: seq<Material>)

  /** Every position index names a whole position. */
  ghost predicate PositionsCover(positions: seq<U32>, vertexIndices: seq<nat>) {
    forall k :: 0 <= k < |vertexIndices| ==> 3 * vertexIndices[k] + 2 < |positions|
  }

  /** Every material id names a material. */
  ghost predicate MaterialsCover(materials: seq<Material>, materialIds: seq<int>) {
    forall k :: 0 <= k < |materialIds| ==> 0 <= materialIds[k] < |materials|
  }

  ghost predicate ShapesCoverPositions(positions: seq<U32>, shapes: seq<Shape>) {
    forall s :: 0 <= s < |shapes| ==> PositionsCover(positions, shapes[s].vertexIndices)
  }

  ghost predicate ShapesCoverMaterials(materials: seq<Material>, shapes: seq<Shape>) {
    forall s :: 0 <= s < |shapes| ==> MaterialsCover(materials, shapes[s].materialIds)
  }

  /** The loader's output is indexed without checks: every position index
      and every material id must be in range. */
  ghost predicate IndicesInRange(positions: seq<U32>, shapes: seq<Shape>, materials: seq<Material>) {
    ShapesCoverPositions(positions, shapes) && ShapesCoverMaterials(materials, shapes)
  }

  /** The vertex of one index entry, with y negated. */
  function VertexOf(positions: seq<U32>, vi: nat): (v: Vertex)
    requires 3 * vi + 2 < |positions|
    ensures v.x == positions[3 * vi] && v.z == positions[3 * vi + 2]
    ensures Negate(v.y) == positions[3 * vi + 1]
  {
    NegateInvolutive(positions[3 * vi + 1]);
    Vertex(positions[3 * vi], Negate(positions[3 * vi + 1]), positions[3 * vi + 2])
  }

  function ShapeVertices(positions: seq<U32>, vertexIndices: seq<nat>): (r: seq<Vertex>)
    requires PositionsCover(positions, vertexIndices)
    ensures |r| == |vertexIndices|
  {
    seq(|vertexIndices|, k requires 0 <= k < |vertexIndices| => VertexOf(positions, vertexIndices[k]))
  }

  function ShapeFaces(materials: seq<Material>, materialIds: seq<int>): (r: seq<Face>)
    requires MaterialsCover(materials, materialIds)
    ensures |r| == |materialIds|
    ensures forall k :: 0 <= k < |r| ==> r[k] == Face(materials[materialIds[k]].diffuse, materials[materialIds[k]].emission)
  {
    seq(|materialIds|, k requires 0 <= k < |materialIds| =>
      Face(materials[materialIds[k]].diffuse, materials[materialIds[k]].emission))
  }

  /** The vertices `load` appends for the first `n` shapes. */
  function LoadedVertices(positions: seq<U32>, shapes: seq<Shape>, n: nat): (r: seq<Vertex>)
    requires n <= |shapes| && ShapesCoverPositions(positions, shapes)
    ensures |r| == IndexEntryCount(shapes, n)
  {
    if n == 0 then []
    else LoadedVertices(positions, shapes, n - 1) + ShapeVertices(positions, shapes[n - 1].vertexIndices)
  }

  /** The faces `load` appends for the first `n` shapes. */
  function LoadedFaces(materials: seq<Material>, shapes: seq<Shape>, n: nat): (r: seq<Face>)
    requires n <= |shapes| && ShapesCoverMaterials(materials, shapes)
    ensures |r| == MaterialIdCount(shapes, n)
  {
    if n == 0 then []
    else LoadedFaces(materials, shapes, n - 1) + ShapeFaces(materials, shapes[n - 1].materialIds)
  }

  /** The number of index entries of the first `n` shapes. */
  function IndexEntryCount(shapes: seq<Shape>, n: nat): nat
    requires n <= |shapes|
  {
    if n == 0 then 0 else IndexEntryCount(shapes, n - 1) + |shapes[n - 1].vertexIndices|
  }

  /** The number of faces of the first `n` shapes. */
  function MaterialIdCount(shapes: seq<Shape>, n: nat): nat
    requires n <= |shapes|
  {
    if n == 0 then 0 else MaterialIdCount(shapes, n - 1) + |shapes[n - 1].materialIds|
  }

  /** The index array: each entry is its own position, as a `uint32_t`. */
  function IdentityIndices(n: nat): (r: seq<U32>)
    ensures |r| == n
  {
    seq(n, i => ToU32(i))
  }

  /** One more index entry appends its own position. */
  lemma IdentityIndicesStep(n: nat)
    ensures IdentityIndices(n + 1) == IdentityIndices(n) + [ToU32(n)]
  {
    assert forall i :: 0 <= i < n ==> IdentityIndices(n + 1)[i] == IdentityIndices(n)[i];
  }

  /** Every triangle of the bottom-level structure is three consecutive
      vertices: index `i` names vertex `i`, so the index buffer adds no
      sharing. */
  lemma IdentityIndicesName(n: nat, i: nat)
    requires i < n < TWO_32
    ensures IdentityIndices(n)[i] == i && IdentityIndices(n)[i] < n
  {
  }

  lemma ShapeVerticesStep(positions: seq<U32>, vertexIndices: seq<nat>, n: nat)
    requires PositionsCover(positions, vertexIndices)
    requires n < |vertexIndices|
    ensures ShapeVertices(positions, vertexIndices[..n + 1])
            == ShapeVertices(positions, vertexIndices[..n]) + [VertexOf(positions, vertexIndices[n])]
  {
    var longer := ShapeVertices(positions, vertexIndices[..n + 1]);
    var shorter := ShapeVertices(positions, vertexIndices[..n]);
    forall k | 0 <= k < |longer|
      ensures longer[k] == (shorter + [VertexOf(positions, vertexIndices[n])])[k]
    {
      if k < n {
        assert vertexIndices[..n + 1][k] == vertexIndices[..n][k];
      }
    }
  }

  lemma ShapeFacesStep(materials: seq<Material>, materialIds: seq<int>, n: nat)
    requires MaterialsCover(materials, materialIds)
    requires n < |materialIds|
    ensures ShapeFaces(materials, materialIds[..n + 1])
            == ShapeFaces(materials, materialIds[..n])
               + [Face(materials[materialIds[n]].diffuse, materials[materialIds[n]].emission)]
  {
    var longer := ShapeFaces(materials, materialIds[..n + 1]);
    var shorter := ShapeFaces(materials, materialIds[..n]);
    assert |longer| == |shorter| + 1;
    forall k | 0 <= k < |longer|
      ensures longer[k] == (shorter + [Face(materials[materialIds[n]].diffuse, materials[materialIds[n]].emission)])[k]
    {
      if k < n {
        assert materialIds[..n + 1][k] == materialIds[..n][k];
      }
    }
  }

  // ---------------------------------------------------------------------
  // The top-level instance

  /** `VkAccelerationStructureInstanceKHR`: a row-major 3x4 transform, two
      words each packing a 24-bit field under an 8-bit one, and the address
      of the bottom-level structure. */
  datatype Instance = Instance(transform: seq<U32>, customIndex: nat, mask: nat,
                               sbtRecordOffset: nat, flags: nat, reference: U64)

  const TWO_24: nat := 0x100_0000
  const INSTANCE_SIZE: nat := 64

  /** `VK_GEOMETRY_INSTANCE_TRIANGLE_FACING_CULL_DISABLE_BIT_KHR` */
  const TRIANGLE_FACING_CULL_DISABLE: nat := 1

  const IDENTITY_TRANSFORM: seq<U32> := [ONE_FLOAT, 0, 0, 0,
                                         0, ONE_FLOAT, 0, 0,
                                         0, 0, ONE_FLOAT, 0]

  ghost predicate ValidInstance(i: Instance) {
    |i.transform| == 12 && i.customIndex < TWO_24 && i.mask < 256 && i.sbtRecordOffset < TWO_24 && i.flags < 256
  }

  /** Two bit-fields in one word: `low` in bits 0-23, `high` in 24-31. */
  function Pack(low: nat, high: nat): (w: U32)
    requires low < TWO_24 && high < 256
    ensures w % TWO_24 == low && w / TWO_24 == high
  {
    low + TWO_24 * high
  }

  /** The 64 bytes the instance buffer is filled with. */
  function EncodeInstance(i: Instance): (r: seq<Byte>)
    requires ValidInstance(i)
    ensures |r| == INSTANCE_SIZE
  {
    Bytes.SerializeU32(i.transform) + Bytes.EncodeU32(Pack(i.customIndex, i.mask))
      + Bytes.EncodeU32(Pack(i.sbtRecordOffset, i.flags)) + Bytes.EncodeU64(i.reference)
  }

  function DecodeInstance(b: seq<Byte>): Instance
    requires |b| == INSTANCE_SIZE
  {
    var w1 := Bytes.DecodeU32(b[48..52]);
    var w2 := Bytes.DecodeU32(b[52..56]);
    Instance(seq(12, k requires 0 <= k < 12 => Bytes.DecodeU32(b[4 * k .. 4 * k + 4])),
             w1 % TWO_24, w1 / TWO_24, w2 % TWO_24, w2 / TWO_24, Bytes.DecodeU64(b[56..64]))
  }

  /** The instance bytes determine the instance: the device reads back
      exactly the transform, fields and reference the engine wrote. */
  lemma DecodeEncodeInstance(i: Instance)
    requires ValidInstance(i)
    ensures DecodeInstance(EncodeInstance(i)) == i
  {
    var b := EncodeInstance(i);
    var t := Bytes.SerializeU32(i.transform);
    assert b[..48] == t;
    var d := DecodeInstance(b);
    forall k | 0 <= k < 12
      ensures d.transform[k] == i.transform[k]
    {
      Bytes.ReadBackU32(i.transform, k);
      assert b[4 * k .. 4 * k + 4] == t[4 * k .. 4 * k + 4];
    }
    assert b[48..52] == Bytes.EncodeU32(Pack(i.customIndex, i.mask));
    assert b[52..56] == Bytes.EncodeU32(Pack(i.sbtRecordOffset, i.flags));
    assert b[56..64] == Bytes.EncodeU64(i.reference);
    Bytes.DecodeEncodeU32(Pack(i.customIndex, i.mask));
    Bytes.DecodeEncodeU32(Pack(i.sbtRecordOffset, i.flags));
    Bytes.DecodeEncodeU64(i.reference);
  }

  /** The one instance: identity transform, custom index 0, visible to
      every ray mask, hit group 0, no facing culling, pointing at `blas`. */
  function ModelInstance(blasAddress: U64): (i: Instance)
    ensures ValidInstance(i)
  {
    Instance(IDENTITY_TRANSFORM, 0, 0xFF, 0, TRIANGLE_FACING_CULL_DISABLE, blasAddress)
  }

  // ---------------------------------------------------------------------
  // The model

  /** What the driver answers while the model is built. */
  datatype RtxDrivers = RtxDrivers(
    vertexStaging: Buffers.BufferDriver, vertexTarget: Buffers.BufferDriver,
    indexStaging: Buffers.BufferDriver, indexTarget: Buffers.BufferDriver,
    faceStaging: Buffers.BufferDriver, faceTarget: Buffers.BufferDriver,
    blas: AccelerationStructures.AccelerationStructureDriver,
    instances: Buffers.BufferDriver,
    tlas: AccelerationStructures.AccelerationStructureDriver)

  ghost predicate AddressesNonNull(d: RtxDrivers) {
    d.vertexStaging.address != 0 && d.vertexTarget.address != 0
    && d.indexStaging.address != 0 && d.indexTarget.address != 0
    && d.faceStaging.address != 0 && d.faceTarget.address != 0
    && d.blas.storageDriver.address != 0 && d.blas.scratchDriver.address != 0
    && d.instances.address != 0
    && d.tlas.storageDriver.address != 0 && d.tlas.scratchDriver.address != 0
  }

  /** The index loop of one shape: a vertex and the next identity index per
      index entry. */
  method AppendShapeVertices(positions: seq<U32>, vertexIndices: seq<nat>, vertices: seq<Vertex>, indices: seq<U32>)
    returns (vertices': seq<Vertex>, indices': seq<U32>)
    requires PositionsCover(positions, vertexIndices)
    requires |vertices| == |indices| && indices == IdentityIndices(|indices|)
    ensures vertices' == vertices + ShapeVertices(positions, vertexIndices)
    ensures |vertices'| == |indices'| && indices' == IdentityIndices(|indices'|)
  {
    vertices', indices' := vertices, indices;
    var ii := 0;
    while ii < |vertexIndices|
      invariant 0 <= ii <= |vertexIndices|
      invariant |vertices'| == |indices'| && indices' == IdentityIndices(|indices'|)
      invariant vertices' == vertices + ShapeVertices(positions, vertexIndices[..ii])
    {
      ShapeVerticesStep(positions, vertexIndices, ii);
      IdentityIndicesStep(|indices'|);
      vertices' := vertices' + [VertexOf(positions, vertexIndices[ii])];
      indices' := indices' + [ToU32(|indices'|)];
      ii := ii + 1;
    }
    assert vertexIndices[..ii] == vertexIndices;
  }

  /** The material loop of one shape: the colours of each face's material. */
  method AppendShapeFaces(materials: seq<Material>, materialIds: seq<int>, faces: seq<Face>) returns (faces': seq<Face>)
    requires MaterialsCover(materials, materialIds)
    ensures faces' == faces + ShapeFaces(materials, materialIds)
  {
    faces' := faces;
    var mi := 0;
    while mi < |materialIds|
      invariant 0 <= mi <= |materialIds|
      invariant faces' == faces + ShapeFaces(materials, materialIds[..mi])
    {
      ShapeFacesStep(materials, materialIds, mi);
      var material := materials[materialIds[mi]];
      faces' := faces' + [Face(material.diffuse, material.emission)];
      mi := mi + 1;
    }
    assert materialIds[..mi] == materialIds;
  }

  class RtxModel {
    const device: Devices.Device
    var vertices: seq<Vertex>
    var indices: seq<U32>
    var faces: seq<Face>
    var nbIndices: U32
    var nbVertices: U32
    var nbFaces: U32
    var vertexBuffer: Option<Buffers.Buffer>
    var indexBuffer: Option<Buffers.Buffer>
    var faceBuffer: Option<Buffers.Buffer>
    var blas: Option<AccelerationStructures.AccelerationStructure>
    var instancesBuffer: Option<Buffers.Buffer>
    var tlas: Option<AccelerationStructures.AccelerationStructure>

    /** One vertex per index, and the indices count up from 0. */
    ghost predicate Valid()
      reads this`vertices, this`indices
    {
      |vertices| == |indices| && indices == IdentityIndices(|indices|)
    }

    constructor (device: Devices.Device)
      ensures Valid() && this.device == device
      ensures vertices == [] && indices == [] && faces == []
      ensures vertexBuffer.None? && indexBuffer.None? && faceBuffer.None?
      ensures blas.None? && instancesBuffer.None? && tlas.None?
    {
      this.device := device;
      vertices, indices, faces := [], [], [];
      nbIndices, nbVertices, nbFaces := 0, 0, 0;
      vertexBuffer, indexBuffer, faceBuffer := None, None, None;
      blas, instancesBuffer, tlas := None, None, None;
    }

    /** The loops of `load`: per shape, one vertex (y negated) and the next
        identity index per index entry, then one face per material id. */
    method AppendShapes(file: ObjFile)
      requires Valid() && IndicesInRange(file.positions, file.shapes, file.materials)
      modifies this`vertices, this`indices, this`faces
      ensures Valid()
      ensures vertices == old(vertices) + LoadedVertices(file.positions, file.shapes, |file.shapes|)
      ensures faces == old(faces) + LoadedFaces(file.materials, file.shapes, |file.shapes|)
    {
      var vs, ids, fs := vertices, indices, faces;
      var si := 0;
      while si < |file.shapes|
        invariant 0 <= si <= |file.shapes|
        invariant |vs| == |ids| && ids == IdentityIndices(|ids|)
        invariant vs == old(vertices) + LoadedVertices(file.positions, file.shapes, si)
        invariant fs == old(faces) + LoadedFaces(file.materials, file.shapes, si)
      {
        var shape := file.shapes[si];
        vs, ids := AppendShapeVertices(file.positions, shape.vertexIndices, vs, ids);
        fs := AppendShapeFaces(file.materials, shape.materialIds, fs);
        si := si + 1;
      }
      vertices, indices, faces := vs, ids, fs;
    }

    /** The uploads of `load`: the arrays are counted (as `uint32_t`) and
        each is uploaded through a staging buffer that receives exactly
        `count` elements. */
    method UploadBuffers(drivers: RtxDrivers) returns (r: Result<()>)
      requires device.Valid() && AddressesNonNull(drivers)
      modifies this`nbIndices, this`nbVertices, this`nbFaces, this`vertexBuffer, this`indexBuffer, this`faceBuffer, device
      ensures device.Valid()
      ensures nbIndices == ToU32(|indices|) && nbVertices == ToU32(|vertices|) && nbFaces == ToU32(|faces|)
      ensures r.Ok? ==> vertexBuffer.Some? && indexBuffer.Some? && faceBuffer.Some?
      ensures r.Ok? ==> fresh(vertexBuffer.value) && vertexBuffer.value.bufferType == Buffers.Vertex
                        && vertexBuffer.value.deviceAddress == drivers.vertexTarget.address
                        && vertexBuffer.value.contents == VertexBytes(vertices[..nbVertices])
      ensures r.Ok? ==> fresh(indexBuffer.value) && indexBuffer.value.bufferType == Buffers.Index
                        && indexBuffer.value.deviceAddress == drivers.indexTarget.address
                        && indexBuffer.value.contents == Bytes.SerializeU32(indices[..nbIndices])
      ensures r.Ok? ==> fresh(faceBuffer.value) && faceBuffer.value.bufferType == Buffers.Face
                        && faceBuffer.value.contents == FaceBytes(faces[..nbFaces])
      ensures r.Ok? ==> device.executed == old(device.executed)
                          + UploadCopies(old(device.nextHandle), VERTEX_SIZE * nbVertices, 4 * nbIndices, FACE_SIZE * nbFaces)
    {
      nbIndices := ToU32(|indices|);
      nbVertices := ToU32(|vertices|);
      nbFaces := ToU32(|faces|);
      r := UploadCounted(drivers);
    }

    /** The uploads of `load` once the arrays are counted. */
    method UploadCounted(drivers: RtxDrivers) returns (r: Result<()>)
      requires device.Valid() && AddressesNonNull(drivers)
      requires nbIndices <= |indices| && nbVertices <= |vertices| && nbFaces <= |faces|
      modifies this`vertexBuffer, this`indexBuffer, this`faceBuffer, device
      ensures device.Valid()
      ensures r.Ok? ==> vertexBuffer.Some? && indexBuffer.Some? && faceBuffer.Some?
      ensures r.Ok? ==> fresh(vertexBuffer.value) && vertexBuffer.value.bufferType == Buffers.Vertex
                        && vertexBuffer.value.deviceAddress == drivers.vertexTarget.address
                        && vertexBuffer.value.contents == VertexBytes(vertices[..nbVertices])
      ensures r.Ok? ==> fresh(indexBuffer.value) && indexBuffer.value.bufferType == Buffers.Index
                        && indexBuffer.value.deviceAddress == drivers.indexTarget.address
                        && indexBuffer.value.contents == Bytes.SerializeU32(indices[..nbIndices])
      ensures r.Ok? ==> fresh(faceBuffer.value) && faceBuffer.value.bufferType == Buffers.Face
                        && faceBuffer.value.contents == FaceBytes(faces[..nbFaces])
      ensures r.Ok? ==> device.executed == old(device.executed)
                          + UploadCopies(old(device.nextHandle), VERTEX_SIZE * nbVertices, 4 * nbIndices, FACE_SIZE * nbFaces)
    {
      var vertexBytes := VertexBytes(vertices[..nbVertices]);
      var indexBytes := Bytes.SerializeU32(indices[..nbIndices]);
      var faceBytes := FaceBytes(faces[..nbFaces]);
      var uploaded := UploadArrays(device, vertexBytes, indexBytes, faceBytes, drivers);
      if uploaded.Err? {
        r := Err(uploaded.error);
        return;
      }
      var buffers := uploaded.value;
      vertexBuffer, indexBuffer, faceBuffer := Some(buffers.0), Some(buffers.1), Some(buffers.2);
      r := Ok(());
    }

    /** The second half of the constructor: the bottom-level structure over
        the uploaded triangles, the instance buffer holding the one instance
        of it, and the top-level structure over that instance. */
    method BuildAccelerationStructures(drivers: RtxDrivers) returns (r: Result<()>)
      requires device.Valid() && AddressesNonNull(drivers)
      requires vertexBuffer.Some? && indexBuffer.Some?
      modifies this`blas, this`instancesBuffer, this`tlas, device
      ensures device.Valid()
      ensures r.Ok? ==> blas.Some? && instancesBuffer.Some? && tlas.Some?
      ensures r.Ok? ==> fresh(blas.value) && fresh(instancesBuffer.value) && fresh(tlas.value)
                        && blas.value.kind == BottomLevel && tlas.value.kind == TopLevel
                        && blas.value.buffer.deviceAddress == drivers.blas.storageDriver.address
      ensures r.Ok? ==> instancesBuffer.value.bufferType == Buffers.AccelInput
                        && instancesBuffer.value.contents == EncodeInstance(ModelInstance(blas.value.buffer.deviceAddress))
      ensures r.Ok? ==> device.executed == old(device.executed)
                          + StructureBuilds(blas.value.accel, tlas.value.accel, vertexBuffer.value.deviceAddress,
                                            indexBuffer.value.deviceAddress, nbVertices, nbIndices, drivers)
    {
      var triangles := Triangles(R32G32B32Sfloat, vertexBuffer.value.deviceAddress, VERTEX_SIZE,
                                 indexBuffer.value.deviceAddress, nbVertices);
      var bottom :- AccelerationStructures.NewAccelerationStructure(device, triangles, nbIndices / 3, BottomLevel, drivers.blas);
      blas := Some(bottom);
      r := BuildTopLevel(drivers);
      if r.Ok? {
        Sequences.AppendTwo(old(device.executed), [BottomLevelBuild(bottom.accel, vertexBuffer.value.deviceAddress,
                                                                    indexBuffer.value.deviceAddress, nbVertices, nbIndices, drivers)],
                            [TopLevelBuild(tlas.value.accel, drivers)]);
      }
    }

    /** The instance buffer holding the one instance of the bottom-level
        structure, then the top-level structure over it. */
    method BuildTopLevel(drivers: RtxDrivers) returns (r: Result<()>)
      requires device.Valid() && AddressesNonNull(drivers) && blas.Some?
      modifies this`instancesBuffer, this`tlas, device
      ensures device.Valid()
      ensures r.Ok? ==> instancesBuffer.Some? && tlas.Some?
      ensures r.Ok? ==> fresh(instancesBuffer.value) && fresh(tlas.value) && tlas.value.kind == TopLevel
      ensures r.Ok? ==> instancesBuffer.value.bufferType == Buffers.AccelInput
                        && instancesBuffer.value.contents == EncodeInstance(ModelInstance(blas.value.buffer.deviceAddress))
      ensures r.Ok? ==> device.executed == old(device.executed) + [TopLevelBuild(tlas.value.accel, drivers)]
    {
      var instance := ModelInstance(blas.value.buffer.deviceAddress);
      var instances :- Buffers.NewBuffer(device, Buffers.AccelInput, INSTANCE_SIZE, Some(EncodeInstance(instance)), drivers.instances);
      instancesBuffer := Some(instances);
      var top :- AccelerationStructures.NewAccelerationStructure(device, Instances(instances.deviceAddress, false), 1, TopLevel, drivers.tlas);
      tlas := Some(top);
      r := Ok(());
    }

    /** What the constructor leaves behind: a loaded file, its arrays and
        their `uint32_t` counts, the three mesh buffers holding the counted
        elements' bytes, the three structures, the instance buffer holding
        the model instance, and the uploads followed by the builds executed. */
    ghost predicate Built(executed: seq<Command>, h: Handle, file: ObjFile, drivers: RtxDrivers)
      reads this, device, if instancesBuffer.Some? then {instancesBuffer.value} else {}
      reads if vertexBuffer.Some? then {vertexBuffer.value} else {}, if indexBuffer.Some? then {indexBuffer.value} else {}
      reads if faceBuffer.Some? then {faceBuffer.value} else {}
    {
      Valid()
      && file.loaded && IndicesInRange(file.positions, file.shapes, file.materials)
      && vertices == LoadedVertices(file.positions, file.shapes, |file.shapes|)
      && faces == LoadedFaces(file.materials, file.shapes, |file.shapes|)
      && nbIndices == ToU32(|indices|) && nbVertices == ToU32(|vertices|) && nbFaces == ToU32(|faces|)
      && vertexBuffer.Some? && indexBuffer.Some? && faceBuffer.Some?
      && vertexBuffer.value.contents == VertexBytes(vertices[..nbVertices])
      && indexBuffer.value.contents == Bytes.SerializeU32(indices[..nbIndices])
      && faceBuffer.value.contents == FaceBytes(faces[..nbFaces])
      && blas.Some? && instancesBuffer.Some? && tlas.Some?
      && instancesBuffer.value.contents == EncodeInstance(ModelInstance(drivers.blas.storageDriver.address))
      && device.executed == executed
           + UploadCopies(h, VERTEX_SIZE * nbVertices, 4 * nbIndices, FACE_SIZE * nbFaces)
           + StructureBuilds(blas.value.accel, tlas.value.accel, drivers.vertexTarget.address,
                             drivers.indexTarget.address, nbVertices, nbIndices, drivers)
    }

    /** The body of the constructor on a model just created. */
    method Construct(file: ObjFile, drivers: RtxDrivers) returns (r: Result<()>)
      requires Valid() && device.Valid() && AddressesNonNull(drivers)
      requires vertices == [] && indices == [] && faces == []
      requires file.loaded ==> IndicesInRange(file.positions, file.shapes, file.materials)
      modifies this, device
      ensures device.Valid()
      ensures !file.loaded ==> r == Err(RuntimeError(file.warn + file.err))
      ensures r.Ok? ==> Built(old(device.executed), old(device.nextHandle), file, drivers)
    {
      var _ :- Load(file, drivers);
      var _ :- BuildAccelerationStructures(drivers);
      r := Ok(());
    }

    /** `load`: a loader failure throws its warnings and errors; otherwise
        the arrays are filled from the shapes and uploaded. */
    method Load(file: ObjFile, drivers: RtxDrivers) returns (r: Result<()>)
      requires Valid() && device.Valid() && AddressesNonNull(drivers)
      requires file.loaded ==> IndicesInRange(file.positions, file.shapes, file.materials)
      modifies this`vertices, this`indices, this`faces, this`nbIndices, this`nbVertices, this`nbFaces
      modifies this`vertexBuffer, this`indexBuffer, this`faceBuffer, device
      ensures Valid() && device.Valid()
      ensures !file.loaded ==> (r == Err(RuntimeError(file.warn + file.err))
                                && vertices == old(vertices) && indices == old(indices) && faces == old(faces)
                                && device.executed == old(device.executed) && device.calls == old(device.calls))
      ensures r.Ok? ==> file.loaded
      ensures file.loaded ==> vertices == old(vertices) + LoadedVertices(file.positions, file.shapes, |file.shapes|)
                              && faces == old(faces) + LoadedFaces(file.materials, file.shapes, |file.shapes|)
      ensures file.loaded ==> nbIndices == ToU32(|indices|) && nbVertices == ToU32(|vertices|) && nbFaces == ToU32(|faces|)
      ensures r.Ok? ==> vertexBuffer.Some? && indexBuffer.Some? && faceBuffer.Some?
      ensures r.Ok? ==> vertexBuffer.value.deviceAddress == drivers.vertexTarget.address
                        && indexBuffer.value.deviceAddress == drivers.indexTarget.address
      ensures r.Ok? ==> vertexBuffer.value.contents == VertexBytes(vertices[..nbVertices])
                        && indexBuffer.value.contents == Bytes.SerializeU32(indices[..nbIndices])
                        && faceBuffer.value.contents == FaceBytes(faces[..nbFaces])
      ensures r.Ok? ==> var h := old(device.nextHandle);
                        device.executed == old(device.executed)
                          + UploadCopies(h, VERTEX_SIZE * nbVertices, 4 * nbIndices, FACE_SIZE * nbFaces)
    {
      if !file.loaded {
        return Err(RuntimeError(file.warn + file.err));
      }
      AppendShapes(file);
      r := UploadBuffers(drivers);
    }
  }

  /** The bytes of a vertex array. */
  function VertexBytes(vs: seq<Vertex>): (r: seq<Byte>)
    ensures |r| == VERTEX_SIZE * |vs|
  {
    Bytes.Serialize(vs, EncodeVertex, VERTEX_SIZE)
  }

  /** Vertex `i` is the 12 bytes at `12 * i`, as the vertex input reads it. */
  lemma VertexSlot(vs: seq<Vertex>, i: nat)
    requires i < |vs|
    ensures VERTEX_SIZE * i + VERTEX_SIZE <= |VertexBytes(vs)|
    ensures VertexBytes(vs)[VERTEX_SIZE * i .. VERTEX_SIZE * i + VERTEX_SIZE] == EncodeVertex(vs[i])
  {
    Bytes.SerializeSlot(vs, EncodeVertex, VERTEX_SIZE, i);
  }

  /** The bytes of a face array. */
  function FaceBytes(fs: seq<Face>): (r: seq<Byte>)
    ensures |r| == FACE_SIZE * |fs|
  {
    Bytes.Serialize(fs, EncodeFace, FACE_SIZE)
  }

  /** Face `i` is the 24 bytes at `24 * i`, as the shaders index it by
      primitive. */
  lemma FaceSlot(fs: seq<Face>, i: nat)
    requires i < |fs|
    ensures FACE_SIZE * i + FACE_SIZE <= |FaceBytes(fs)|
    ensures FaceBytes(fs)[FACE_SIZE * i .. FACE_SIZE * i + FACE_SIZE] == EncodeFace(fs[i])
  {
    Bytes.SerializeSlot(fs, EncodeFace, FACE_SIZE, i);
  }

  /** The copies the three uploads execute, given the first handle they
      create and the byte size of each array: every staging buffer is
      copied whole into the device-local buffer created two handles after
      it. */
  function UploadCopies(h: Handle, vertexSize: nat, indexSize: nat, faceSize: nat): (commands: seq<Command>)
    ensures |commands| == 3
  {
    [CopyBuffer(h, h + 2, BufferCopy(0, 0, vertexSize)),
     CopyBuffer(h + 5, h + 7, BufferCopy(0, 0, indexSize)),
     CopyBuffer(h + 10, h + 12, BufferCopy(0, 0, faceSize))]
  }

  /** The three uploads of `load`, in order: vertices, indices, faces, each
      staged with its data and copied into a device-local buffer. */
  method UploadArrays(device: Devices.Device, vertexBytes: seq<Byte>, indexBytes: seq<Byte>, faceBytes: seq<Byte>,
                      drivers: RtxDrivers)
    returns (r: Result<(Buffers.Buffer, Buffers.Buffer, Buffers.Buffer)>)
    requires device.Valid() && AddressesNonNull(drivers)
    modifies device
    ensures device.Valid()
    ensures r.Ok? ==> var (vb, ib, fb) := r.value;
                      fresh(vb) && fresh(ib) && fresh(fb)
                      && vb.bufferType == Buffers.Vertex && vb.contents == vertexBytes
                      && vb.deviceAddress == drivers.vertexTarget.address
                      && ib.bufferType == Buffers.Index && ib.contents == indexBytes
                      && ib.deviceAddress == drivers.indexTarget.address
                      && fb.bufferType == Buffers.Face && fb.contents == faceBytes
    ensures r.Ok? ==> device.executed == old(device.executed)
                        + UploadCopies(old(device.nextHandle), |vertexBytes|, |indexBytes|, |faceBytes|)
  {
    var vb :- Models.UploadThroughStaging(device, Buffers.Vertex, vertexBytes, true, drivers.vertexStaging, drivers.vertexTarget);
    var rest :- UploadIndicesAndFaces(device, indexBytes, faceBytes, drivers);
    r := Ok((vb, rest.0, rest.1));
  }

  /** The last two uploads of `load`: indices, then faces. */
  method UploadIndicesAndFaces(device: Devices.Device, indexBytes: seq<Byte>, faceBytes: seq<Byte>, drivers: RtxDrivers)
    returns (r: Result<(Buffers.Buffer, Buffers.Buffer)>)
    requires device.Valid() && AddressesNonNull(drivers)
    modifies device
    ensures device.Valid()
    ensures r.Ok? ==> var (ib, fb) := r.value;
                      fresh(ib) && fresh(fb)
                      && ib.bufferType == Buffers.Index && ib.contents == indexBytes
                      && ib.deviceAddress == drivers.indexTarget.address
                      && fb.bufferType == Buffers.Face && fb.contents == faceBytes
    ensures r.Ok? ==> var h := old(device.nextHandle);
                      device.executed == old(device.executed)
                        + [CopyBuffer(h, h + 2, BufferCopy(0, 0, |indexBytes|)), CopyBuffer(h + 5, h + 7, BufferCopy(0, 0, |faceBytes|))]
  {
    var ib :- Models.UploadThroughStaging(device, Buffers.Index, indexBytes, true, drivers.indexStaging, drivers.indexTarget);
    var fb :- Models.UploadThroughStaging(device, Buffers.Face, faceBytes, true, drivers.faceStaging, drivers.faceTarget);
    r := Ok((ib, fb));
  }

  /** The builds the constructor executes after the uploads: the
      bottom-level structure over the `nbIndices / 3` triangles, reading
      vertices and indices through their device addresses, then the
      top-level structure over the one instance in the instance buffer. */
  function StructureBuilds(blasAccel: Handle, tlasAccel: Handle, vertexAddress: nat, indexAddress: nat,
                           nbVertices: U32, nbIndices: U32, drivers: RtxDrivers): (commands: seq<Command>)
    ensures |commands| == 2
  {
    [BottomLevelBuild(blasAccel, vertexAddress, indexAddress, nbVertices, nbIndices, drivers),
     TopLevelBuild(tlasAccel, drivers)]
  }

  /** The bottom-level build: the `nbIndices / 3` triangles. */
  function BottomLevelBuild(blasAccel: Handle, vertexAddress: nat, indexAddress: nat,
                            nbVertices: U32, nbIndices: U32, drivers: RtxDrivers): (command: Command)
  {
    BuildAccelerationStructure(blasAccel, BottomLevel,
      Triangles(R32G32B32Sfloat, vertexAddress, VERTEX_SIZE, indexAddress, nbVertices),
      nbIndices / 3, drivers.blas.scratchDriver.address)
  }

  /** The top-level build: the one instance in the instance buffer. */
  function TopLevelBuild(tlasAccel: Handle, drivers: RtxDrivers): (command: Command)
  {
    BuildAccelerationStructure(tlasAccel, TopLevel,
      Instances(drivers.instances.address, false), 1, drivers.tlas.scratchDriver.address)
  }

  /** `RTXModel::RTXModel`: loads and uploads the mesh, then builds the
      acceleration structures over it. */
  method NewRtxModel(device: Devices.Device, file: ObjFile, drivers: RtxDrivers) returns (r: Result<RtxModel>)
    requires device.Valid() && AddressesNonNull(drivers)
    requires file.loaded ==> IndicesInRange(file.positions, file.shapes, file.materials)
    modifies device
    ensures device.Valid()
    ensures !file.loaded ==> r == Err(RuntimeError(file.warn + file.err))
    ensures r.Ok? ==> fresh(r.value) && r.value.device == device
                      && r.value.Built(old(device.executed), old(device.nextHandle), file, drivers)
  {
    var model := new RtxModel(device);
    var _ :- model.Construct(file, drivers);
    r := Ok(model);
  }
}
