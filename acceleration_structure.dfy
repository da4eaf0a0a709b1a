/** Acceleration structures (`AccelerationStructure`), as an opaque build:
    a storage buffer of the size the driver asks for, the structure placed
    in it, a scratch buffer, and one build command executed in a one-shot
    command buffer. */
module AccelerationStructures {
  import opened Wrappers
  import opened Vulkan
  import Devices
  import Buffers

  /** What the driver answers: the sizes from
      `vkGetAccelerationStructureBuildSizesKHR` and what it answers while
      the storage and the scratch buffers are created. */
  datatype AccelerationStructureDriver = AccelerationStructureDriver(
    structureSize: nat,
    scratchSize: nat,
    storageDriver: Buffers.BufferDriver,
    scratchDriver: Buffers.BufferDriver)

  class AccelerationStructure {
    const device: Devices.Device
    const kind: AccelerationStructureKind
    /** The storage the structure lives in; its device address is what a
        top-level instance refers to. */
    const buffer: Buffers.Buffer
    const accel: Handle
    const scratch: Buffers.Buffer

    constructor (device: Devices.Device, kind: AccelerationStructureKind, buffer: Buffers.Buffer, accel: Handle, scratch: Buffers.Buffer)
      ensures this.device == device && this.kind == kind && this.buffer == buffer
      ensures this.accel == accel && this.scratch == scratch
    {
      this.device := device;
      this.kind := kind;
      this.buffer := buffer;
      this.accel := accel;
      this.scratch := scratch;
    }

    /** The destructor destroys the structure; its buffers are left alone. */
    method Destroy()
      modifies device
      ensures device.calls == old(device.calls) + [DestroyAccelerationStructure(accel)]
      ensures device.nextHandle == old(device.nextHandle) && device.recording == old(device.recording)
      ensures device.executed == old(device.executed)
    {
      device.Log(DestroyAccelerationStructure(accel));
    }
  }

  /** `AccelerationStructure::AccelerationStructure`: builds one geometry of
      `primitiveCount` primitives into a fresh structure and waits for the
      build. The result of `vkCreateAccelerationStructureKHR` is not
      checked, so only the buffer creations can fail. */
  method NewAccelerationStructure(device: Devices.Device, geometry: Geometry, primitiveCount: U32,
                                  kind: AccelerationStructureKind, driver: AccelerationStructureDriver)
    returns (r: Result<AccelerationStructure>)
    requires device.Valid()
    requires driver.storageDriver.address != 0 && driver.scratchDriver.address != 0
    modifies device
    ensures device.Valid()
    ensures device.recording == old(device.recording)
    ensures r.Ok? ==> fresh(r.value) && fresh(r.value.buffer) && r.value.kind == kind && r.value.device == device
    ensures r.Ok? ==> r.value.buffer.bufferType == Buffers.AccelStorage && r.value.buffer.size == driver.structureSize
                      && r.value.buffer.deviceAddress == driver.storageDriver.address
    ensures r.Ok? ==> r.value.scratch.bufferType == Buffers.Scratch && r.value.scratch.size == driver.scratchSize
    ensures r.Ok? ==> device.executed == old(device.executed)
                        + [BuildAccelerationStructure(r.value.accel, kind, geometry, primitiveCount, driver.scratchDriver.address)]
    ensures r.Err? ==> device.executed == old(device.executed)
  {
    var storage :- Buffers.NewBuffer(device, Buffers.AccelStorage, driver.structureSize, None, driver.storageDriver);
    var accel := device.NewHandle();
    var scratch :- Buffers.NewBuffer(device, Buffers.Scratch, driver.scratchSize, None, driver.scratchDriver);
    device.RunOneShot(BuildAccelerationStructure(accel, kind, geometry, primitiveCount, scratch.deviceAddress));
    var structure := new AccelerationStructure(device, kind, storage, accel, scratch);
    r := Ok(structure);
  }
}
