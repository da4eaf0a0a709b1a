/** GPU buffers (`Buffer`): the usage and memory-property table per buffer
    type, creation with optional initial data, the device-address rule, and
    the one-shot buffer-to-buffer copy. A buffer's memory is modelled as the
    byte sequence of its first `size` bytes. */
module Buffers {
  import opened Wrappers
  import opened Vulkan
  import PD = PhysicalDevices
  import Devices

  datatype BufferType =
    | Scratch
    | Staging
    | Vertex
    | Index
    | Face
    | Uniform
    | AccelInput
    | AccelStorage
    | ShaderBindingTableBuffer

  /** Buffers the host writes through a mapping. */
  predicate HostWritable(t: BufferType) {
    t == Staging || t == Uniform || t == AccelInput || t == ShaderBindingTableBuffer
  }

  /** The usage flags of each buffer type. Buffers that are copied into are
      exactly the mesh buffers, and every type except the staging and
      uniform buffers is reachable by device address. */
  function Usage(t: BufferType): (usage: set<BufferUsage>)
    ensures ShaderDeviceAddress in usage <==> t != Staging && t != Uniform
    ensures TransferDst in usage <==> t == Vertex || t == Index || t == Face
    ensures TransferSrc in usage <==> t == Staging
    ensures AccelerationStructureBuildInput in usage <==> t == Vertex || t == Index || t == Face || t == AccelInput
    ensures |usage| >= 1
  {
    match t
    case Scratch => {StorageBuffer, ShaderDeviceAddress}
    case Staging => {TransferSrc}
    case Vertex => {TransferDst, VertexBuffer, AccelerationStructureBuildInput, StorageBuffer, ShaderDeviceAddress}
    case Index => {TransferDst, IndexBuffer, AccelerationStructureBuildInput, StorageBuffer, ShaderDeviceAddress}
    case Face => {TransferDst, AccelerationStructureBuildInput, StorageBuffer, ShaderDeviceAddress}
    case Uniform => {UniformBuffer}
    case AccelInput => {AccelerationStructureBuildInput, StorageBuffer, ShaderDeviceAddress}
    case AccelStorage => {AccelerationStructureStorage, ShaderDeviceAddress}
    case ShaderBindingTableBuffer => {ShaderBindingTable, ShaderDeviceAddress}
  }

  /** The memory properties of each buffer type: host-visible and coherent
      for the buffers the host writes, device-local for the rest. */
  function MemoryProperties(t: BufferType): (properties: set<MemoryProperty>)
    ensures HostWritable(t) ==> properties == {HostVisible, HostCoherent}
    ensures !HostWritable(t) ==> properties == {DeviceLocal}
  {
    match t
    case Scratch => {DeviceLocal}
    case Staging => {HostVisible, HostCoherent}
    case Vertex => {DeviceLocal}
    case Index => {DeviceLocal}
    case Face => {DeviceLocal}
    case Uniform => {HostVisible, HostCoherent}
    case AccelInput => {HostVisible, HostCoherent}
    case AccelStorage => {DeviceLocal}
    case ShaderBindingTableBuffer => {HostVisible, HostCoherent}
  }

  /** What the driver answers while a buffer is created: the result of
      `vkCreateBuffer`, the allowed memory types, the result of
      `vkAllocateMemory`, and the address `vkGetBufferDeviceAddress` would
      return. */
  datatype BufferDriver = BufferDriver(
    createResult: VkResult,
    memoryTypeBits: U32,
    allocateResult: VkResult,
    address: U64)

  /** Memory nothing has written yet. Its contents are undefined in Vulkan;
      the model reads them as zero bytes. */
  function Unwritten(size: nat): (r: seq<Byte>)
    ensures |r| == size
  {
    seq(size, _ => 0)
  }

  class Buffer {
    const device: Devices.Device
    const bufferType: BufferType
    const size: nat
    const buffer: Handle
    const memory: Handle
    const memoryTypeIndex: nat
    /** 0 unless the usage includes `SHADER_DEVICE_ADDRESS` */
    const deviceAddress: U64
    var contents: seq<Byte>

    ghost predicate Valid()
      reads this
    {
      |contents| == size
      && memoryTypeIndex < |device.physical.memoryTypes|
      && MemoryProperties(bufferType) <= device.physical.memoryTypes[memoryTypeIndex].propertyFlags
      && (deviceAddress != 0 <==> ShaderDeviceAddress in Usage(bufferType))
      && buffer != 0 && memory != 0 && buffer != memory
    }

    constructor (device: Devices.Device, bufferType: BufferType, size: nat, buffer: Handle, memory: Handle,
                 memoryTypeIndex: nat, deviceAddress: U64, contents: seq<Byte>)
      ensures this.device == device && this.bufferType == bufferType && this.size == size
      ensures this.buffer == buffer && this.memory == memory && this.memoryTypeIndex == memoryTypeIndex
      ensures this.deviceAddress == deviceAddress && this.contents == contents
    {
      this.device := device;
      this.bufferType := bufferType;
      this.size := size;
      this.buffer := buffer;
      this.memory := memory;
      this.memoryTypeIndex := memoryTypeIndex;
      this.deviceAddress := deviceAddress;
      this.contents := contents;
    }

    /** Maps the memory, copies `bytes` over it and unmaps it. Only
        host-visible buffers are mapped. */
    method WriteMapped(bytes: seq<Byte>)
      requires Valid() && HostWritable(bufferType) && |bytes| == size
      modifies this
      ensures Valid()
      ensures contents == bytes
    {
      contents := bytes;
    }

    /** `copy`: a one-shot copy of the first `n` bytes of `other` to the
        start of this buffer; the rest of this buffer is untouched. */
    method Copy(other: Buffer, n: nat)
      requires Valid() && other.Valid() && device.Valid()
      requires n <= size && n <= other.size
      modifies this, device
      ensures Valid() && device.Valid()
      ensures contents == old(other.contents)[..n] + old(contents)[n..]
      ensures other != this ==> other.contents == old(other.contents)
      ensures device.executed == old(device.executed) + [CopyBuffer(other.buffer, buffer, BufferCopy(0, 0, n))]
      ensures device.recording == old(device.recording)
      ensures device.nextHandle == old(device.nextHandle) + 1
      ensures device.calls == old(device.calls) + Devices.OneShotCalls(device.graphicsQueue, old(device.nextHandle))
    {
      device.RunOneShot(CopyBuffer(other.buffer, buffer, BufferCopy(0, 0, n)));
      contents := other.contents[..n] + contents[n..];
    }
  }

  /** `Buffer::Buffer`: creates the buffer, picks the first allowed memory
      type with the type's properties, allocates and binds it, resolves the
      device address when the usage allows it, and uploads `data` when
      given. Each failing step throws. */
  method NewBuffer(device: Devices.Device, t: BufferType, size: nat, data: Option<seq<Byte>>, driver: BufferDriver)
    returns (r: Result<Buffer>)
    requires device.Valid()
    requires data.Some? ==> |data.value| >= size
    requires driver.address != 0
    modifies device
    ensures device.Valid()
    ensures device.recording == old(device.recording) && device.executed == old(device.executed)
    ensures device.calls == old(device.calls)
    ensures driver.createResult != Success ==> r == Err(RuntimeError("failed to create buffer!"))
    ensures var memoryType := PD.FindMemoryType(device.physical.memoryTypes, driver.memoryTypeBits, MemoryProperties(t));
            r.Ok? <==> driver.createResult == Success && memoryType.Ok? && driver.allocateResult == Success
    ensures r.Ok? ==> fresh(r.value) && r.value.Valid() && r.value.device == device
    ensures r.Ok? ==> r.value.bufferType == t && r.value.size == size
    ensures r.Ok? ==> r.value.memoryTypeIndex
                      == PD.FindMemoryType(device.physical.memoryTypes, driver.memoryTypeBits, MemoryProperties(t)).value
    ensures r.Ok? ==> r.value.deviceAddress == (if ShaderDeviceAddress in Usage(t) then driver.address else 0)
    ensures r.Ok? ==> r.value.contents == (if data.Some? then data.value[..size] else Unwritten(size))
    ensures r.Ok? ==> r.value.buffer == old(device.nextHandle) && r.value.memory == old(device.nextHandle) + 1
                      && device.nextHandle == old(device.nextHandle) + 2
  {
    if driver.createResult != Success {
      return Err(RuntimeError("failed to create buffer!"));
    }
    var buffer := device.NewHandle();
    var memoryType :- PD.FindMemoryType(device.physical.memoryTypes, driver.memoryTypeBits, MemoryProperties(t));
    if driver.allocateResult != Success {
      return Err(RuntimeError("failed to allocate buffer memory!"));
    }
    var memory := device.NewHandle();
    var deviceAddress := 0;
    if ShaderDeviceAddress in Usage(t) {
      deviceAddress := driver.address;
    }
    var contents := Unwritten(size);
    if data.Some? {
      contents := data.value[..size];
    }
    var b := new Buffer(device, t, size, buffer, memory, memoryType, deviceAddress, contents);
    r := Ok(b);
  }
}
