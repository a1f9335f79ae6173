/** The cross-process descriptor of an AAudio shared-memory ring buffer
    (`RingBufferParcelable`): three region references (read counter, write counter,
    data) and the buffer's geometry. It converts to and from the plain wire record
    `RingBuffer`, is configured by one of three memory-layout conventions, is checked
    by `validate` and is resolved into the addresses of a `RingBufferDescriptor`. */
module RingBuffers {
  import opened AAudioTypes
  import opened SharedRegions

  /** The plain wire record `RingBuffer`. */
  datatype RingBuffer = RingBuffer(
    readCounterParcelable: SharedRegion,
    writeCounterParcelable: SharedRegion,
    dataParcelable: SharedRegion,
    bytesPerFrame: int32,
    framesPerBurst: int32,
    capacityInFrames: int32,
    flags: int32)

  /** The fields of a `RingBufferParcelable`, as one value. */
  datatype ParcelableValue = ParcelableValue(
    readCounterParcelable: SharedRegionParcelable,
    writeCounterParcelable: SharedRegionParcelable,
    dataParcelable: SharedRegionParcelable,
    bytesPerFrame: int32,
    framesPerBurst: int32,
    capacityInFrames: int32,
    flags: RingbufferFlags)

  /** The fields of a `RingBufferDescriptor`, as one value. */
  datatype DescriptorValue = DescriptorValue(
    dataAddress: Address,
    writeCounterAddress: Address,
    readCounterAddress: Address,
    bytesPerFrame: int32,
    framesPerBurst: int32,
    capacityInFrames: int32,
    flags: RingbufferFlags)

  /** What `resolve` returns, together with the descriptor it leaves behind. */
  datatype Resolution = Resolution(result: ResultCode, descriptor: DescriptorValue)

  /** Exclusive upper bounds on the geometry of a descriptor received from another process. */
  const CAPACITY_IN_FRAMES_LIMIT: int32 := 32 * 1024
  const BYTES_PER_FRAME_LIMIT: int32 := 256
  const FRAMES_PER_BURST_LIMIT: int32 := 16 * 1024

  /** The geometry a consumer may safely build a ring buffer from. */
  predicate ValidGeometry(v: ParcelableValue) {
    && 0 <= v.capacityInFrames < CAPACITY_IN_FRAMES_LIMIT
    && 0 <= v.bytesPerFrame < BYTES_PER_FRAME_LIMIT
    && 0 <= v.framesPerBurst < FRAMES_PER_BURST_LIMIT
  }

  /** The two values have the same three regions (and may differ in geometry and flags). */
  predicate SameRegions(v: ParcelableValue, u: ParcelableValue) {
    && v.readCounterParcelable == u.readCounterParcelable
    && v.writeCounterParcelable == u.writeCounterParcelable
    && v.dataParcelable == u.dataParcelable
  }

  /** The state the wire constructor builds from a wire record. */
  function FromWire(w: RingBuffer): (v: ParcelableValue) {
    ParcelableValue(
      SharedRegionParcelable.FromWire(w.readCounterParcelable),
      SharedRegionParcelable.FromWire(w.writeCounterParcelable),
      SharedRegionParcelable.FromWire(w.dataParcelable),
      w.bytesPerFrame, w.framesPerBurst, w.capacityInFrames,
      FlagsFromWire(w.flags))
  }

  /** The effect of `resolve` on a caller's descriptor `d`, for a parcelable in state `v`. */
  function ResolveInto<M>(v: ParcelableValue, memoryParcels: M, resolveRegion: RegionResolver<M>,
                          d: DescriptorValue): (out: Resolution)
    // success exactly when all three regions resolve
    ensures out.result == AAUDIO_OK <==>
      && resolveRegion(v.readCounterParcelable, memoryParcels).Resolved?
      && resolveRegion(v.writeCounterParcelable, memoryParcels).Resolved?
      && resolveRegion(v.dataParcelable, memoryParcels).Resolved?
    // otherwise the error of the first failing region, in the order read counter, write counter, data
    ensures resolveRegion(v.readCounterParcelable, memoryParcels).Failed? ==>
      out.result == resolveRegion(v.readCounterParcelable, memoryParcels).code
    ensures resolveRegion(v.readCounterParcelable, memoryParcels).Resolved? &&
            resolveRegion(v.writeCounterParcelable, memoryParcels).Failed? ==>
      out.result == resolveRegion(v.writeCounterParcelable, memoryParcels).code
    ensures resolveRegion(v.readCounterParcelable, memoryParcels).Resolved? &&
            resolveRegion(v.writeCounterParcelable, memoryParcels).Resolved? &&
            resolveRegion(v.dataParcelable, memoryParcels).Failed? ==>
      out.result == resolveRegion(v.dataParcelable, memoryParcels).code
    // an address slot receives its region's address once that region and every earlier one resolved;
    // a region after the first failure is never reached and its slot keeps the caller's value
    ensures out.descriptor.readCounterAddress ==
      match resolveRegion(v.readCounterParcelable, memoryParcels)
      case Resolved(a) => a
      case Failed(_) => d.readCounterAddress
    ensures out.descriptor.writeCounterAddress ==
      if resolveRegion(v.readCounterParcelable, memoryParcels).Failed? then d.writeCounterAddress
      else match resolveRegion(v.writeCounterParcelable, memoryParcels)
        case Resolved(a) => a
        case Failed(_) => d.writeCounterAddress
    ensures out.descriptor.dataAddress ==
      if out.result == AAUDIO_OK then resolveRegion(v.dataParcelable, memoryParcels).address
      else d.dataAddress
    // geometry and flags are copied in only on success, and then verbatim
    ensures out.result == AAUDIO_OK ==>
      && out.descriptor.bytesPerFrame == v.bytesPerFrame
      && out.descriptor.framesPerBurst == v.framesPerBurst
      && out.descriptor.capacityInFrames == v.capacityInFrames
      && out.descriptor.flags == v.flags
    ensures out.result != AAUDIO_OK ==>
      && out.descriptor.bytesPerFrame == d.bytesPerFrame
      && out.descriptor.framesPerBurst == d.framesPerBurst
      && out.descriptor.capacityInFrames == d.capacityInFrames
      && out.descriptor.flags == d.flags
  {
    match resolveRegion(v.readCounterParcelable, memoryParcels)
    case Failed(e) => Resolution(e, d)
    case Resolved(readCounterAddress) =>
      var d1 := d.(readCounterAddress := readCounterAddress);
      match resolveRegion(v.writeCounterParcelable, memoryParcels)
      case Failed(e) => Resolution(e, d1)
      case Resolved(writeCounterAddress) =>
        var d2 := d1.(writeCounterAddress := writeCounterAddress);
        match resolveRegion(v.dataParcelable, memoryParcels)
        case Failed(e) => Resolution(e, d2)
        case Resolved(dataAddress) =>
          Resolution(AAUDIO_OK, d2.(dataAddress := dataAddress,
                                    bytesPerFrame := v.bytesPerFrame,
                                    framesPerBurst := v.framesPerBurst,
                                    capacityInFrames := v.capacityInFrames,
                                    flags := v.flags))
  }

  /** The caller-supplied descriptor that `resolve` fills in. */
  class RingBufferDescriptor {
    var dataAddress: Address
    var writeCounterAddress: Address
    var readCounterAddress: Address
    var bytesPerFrame: int32
    var framesPerBurst: int32
    var capacityInFrames: int32
    var flags: RingbufferFlags

    function Value(): (v: DescriptorValue)
      reads this
    {
      DescriptorValue(dataAddress, writeCounterAddress, readCounterAddress,
                      bytesPerFrame, framesPerBurst, capacityInFrames, flags)
    }
  }

  class RingBufferParcelable {
    var readCounterParcelable: SharedRegionParcelable
    var writeCounterParcelable: SharedRegionParcelable
    var dataParcelable: SharedRegionParcelable
    var bytesPerFrame: int32
    var framesPerBurst: int32
    var capacityInFrames: int32
    var flags: RingbufferFlags

    function Value(): (v: ParcelableValue)
      reads this
    {
      ParcelableValue(readCounterParcelable, writeCounterParcelable, dataParcelable,
                      bytesPerFrame, framesPerBurst, capacityInFrames, flags)
    }

    /** Builds the descriptor from its wire record; converting back gives that record again. */
    constructor (parcelable: RingBuffer)
      ensures Value() == FromWire(parcelable)
      ensures Parcelable() == parcelable
    {
      readCounterParcelable := SharedRegionParcelable.FromWire(parcelable.readCounterParcelable);
      writeCounterParcelable := SharedRegionParcelable.FromWire(parcelable.writeCounterParcelable);
      dataParcelable := SharedRegionParcelable.FromWire(parcelable.dataParcelable);
      bytesPerFrame := parcelable.bytesPerFrame;
      framesPerBurst := parcelable.framesPerBurst;
      capacityInFrames := parcelable.capacityInFrames;
      flags := FlagsFromWire(parcelable.flags);
      new;
      FlagsWireRoundTrip(parcelable.flags);
    }

    /** `parcelable()`: the wire record of this descriptor, which the wire constructor
        turns back into exactly this descriptor's state. */
    function Parcelable(): (r: RingBuffer)
      reads this
      ensures FromWire(r) == Value()
    {
      FlagsValueRoundTrip(flags);
      RingBuffer(readCounterParcelable.Parcelable(), writeCounterParcelable.Parcelable(),
                 dataParcelable.Parcelable(), bytesPerFrame, framesPerBurst, capacityInFrames,
                 FlagsToWire(flags))
    }

    /** All three regions in one segment, at explicit offsets; both counters have the same size. */
    method SetupMemory(sharedMemoryIndex: int32, dataMemoryOffset: int32, dataSizeInBytes: int32,
                       readCounterOffset: int32, writeCounterOffset: int32, counterSizeBytes: int32)
      modifies this
      ensures readCounterParcelable == SharedRegionParcelable(sharedMemoryIndex, readCounterOffset, counterSizeBytes)
      ensures writeCounterParcelable == SharedRegionParcelable(sharedMemoryIndex, writeCounterOffset, counterSizeBytes)
      ensures dataParcelable == SharedRegionParcelable(sharedMemoryIndex, dataMemoryOffset, dataSizeInBytes)
      ensures Value() == old(Value()).(readCounterParcelable := readCounterParcelable,
                                       writeCounterParcelable := writeCounterParcelable,
                                       dataParcelable := dataParcelable)
    {
      readCounterParcelable := SharedRegionParcelable.Setup((sharedMemoryIndex, readCounterOffset, counterSizeBytes));
      writeCounterParcelable := SharedRegionParcelable.Setup((sharedMemoryIndex, writeCounterOffset, counterSizeBytes));
      dataParcelable := SharedRegionParcelable.Setup((sharedMemoryIndex, dataMemoryOffset, dataSizeInBytes));
    }

    /** One data region; both counter regions are empty (offset 0, size 0) in the same segment. */
    method SetupMemoryDataOnly(sharedMemoryIndex: int32, dataMemoryOffset: int32, dataSizeInBytes: int32)
      modifies this
      ensures readCounterParcelable == SharedRegionParcelable(sharedMemoryIndex, 0, 0)
      ensures writeCounterParcelable == SharedRegionParcelable(sharedMemoryIndex, 0, 0)
      ensures dataParcelable == SharedRegionParcelable(sharedMemoryIndex, dataMemoryOffset, dataSizeInBytes)
      ensures Value() == old(Value()).(readCounterParcelable := readCounterParcelable,
                                       writeCounterParcelable := writeCounterParcelable,
                                       dataParcelable := dataParcelable)
    {
      readCounterParcelable := SharedRegionParcelable.Setup((sharedMemoryIndex, 0, 0));
      writeCounterParcelable := SharedRegionParcelable.Setup((sharedMemoryIndex, 0, 0));
      dataParcelable := SharedRegionParcelable.Setup((sharedMemoryIndex, dataMemoryOffset, dataSizeInBytes));
    }

    /** Each region from its own (index, offset, size) tuple; the tuples come data first. */
    method SetupMemoryFromTuples(dataMemoryInfo: MemoryInfoTuple, readCounterInfo: MemoryInfoTuple,
                                 writeCounterInfo: MemoryInfoTuple)
      modifies this
      ensures readCounterParcelable == SharedRegionParcelable(readCounterInfo.0, readCounterInfo.1, readCounterInfo.2)
      ensures writeCounterParcelable == SharedRegionParcelable(writeCounterInfo.0, writeCounterInfo.1, writeCounterInfo.2)
      ensures dataParcelable == SharedRegionParcelable(dataMemoryInfo.0, dataMemoryInfo.1, dataMemoryInfo.2)
      ensures Value() == old(Value()).(readCounterParcelable := readCounterParcelable,
                                       writeCounterParcelable := writeCounterParcelable,
                                       dataParcelable := dataParcelable)
    {
      readCounterParcelable := SharedRegionParcelable.Setup(readCounterInfo);
      writeCounterParcelable := SharedRegionParcelable.Setup(writeCounterInfo);
      dataParcelable := SharedRegionParcelable.Setup(dataMemoryInfo);
    }

    function GetBytesPerFrame(): (r: int32)
      reads this
    {
      bytesPerFrame
    }

    method SetBytesPerFrame(bytesPerFrame: int32)
      modifies this
      ensures GetBytesPerFrame() == bytesPerFrame
      ensures Value() == old(Value()).(bytesPerFrame := bytesPerFrame)
    {
      this.bytesPerFrame := bytesPerFrame;
    }

    function GetFramesPerBurst(): (r: int32)
      reads this
    {
      framesPerBurst
    }

    method SetFramesPerBurst(framesPerBurst: int32)
      modifies this
      ensures GetFramesPerBurst() == framesPerBurst
      ensures Value() == old(Value()).(framesPerBurst := framesPerBurst)
    {
      this.framesPerBurst := framesPerBurst;
    }

    function GetCapacityInFrames(): (r: int32)
      reads this
    {
      capacityInFrames
    }

    method SetCapacityInFrames(capacityInFrames: int32)
      modifies this
      ensures GetCapacityInFrames() == capacityInFrames
      ensures Value() == old(Value()).(capacityInFrames := capacityInFrames)
    {
      this.capacityInFrames := capacityInFrames;
    }

    /** Resolves the read counter, write counter and data regions, in that order, into the
        caller's descriptor, stopping at the first failure; copies the geometry only on success. */
    method Resolve<M>(memoryParcels: M, resolveRegion: RegionResolver<M>, descriptor: RingBufferDescriptor)
      returns (result: ResultCode)
      modifies descriptor
      ensures Resolution(result, descriptor.Value()) ==
              ResolveInto(Value(), memoryParcels, resolveRegion, old(descriptor.Value()))
    {
      var region := resolveRegion(readCounterParcelable, memoryParcels);
      if region.Failed? {
        return region.code;
      }
      descriptor.readCounterAddress := region.address;

      region := resolveRegion(writeCounterParcelable, memoryParcels);
      if region.Failed? {
        return region.code;
      }
      descriptor.writeCounterAddress := region.address;

      region := resolveRegion(dataParcelable, memoryParcels);
      if region.Failed? {
        return region.code;
      }
      descriptor.dataAddress := region.address;

      descriptor.bytesPerFrame := bytesPerFrame;
      descriptor.framesPerBurst := framesPerBurst;
      descriptor.capacityInFrames := capacityInFrames;
      descriptor.flags := flags;
      return AAUDIO_OK;
    }

    /** Takes the regions of `parcelable`, each rebound through `memoryIndexMap`, and its geometry.
        This descriptor's own flags are kept. `parcelable` may be this descriptor itself. */
    method UpdateMemory(parcelable: RingBufferParcelable, memoryIndexMap: map<int32, int32>,
                        getMemoryInfo: MemoryInfoFunction)
      modifies this
      ensures Value() == old(Value()).(
        readCounterParcelable := SharedRegionParcelable.Setup(
          getMemoryInfo(old(parcelable.readCounterParcelable), memoryIndexMap)),
        writeCounterParcelable := SharedRegionParcelable.Setup(
          getMemoryInfo(old(parcelable.writeCounterParcelable), memoryIndexMap)),
        dataParcelable := SharedRegionParcelable.Setup(
          getMemoryInfo(old(parcelable.dataParcelable), memoryIndexMap)),
        bytesPerFrame := old(parcelable.bytesPerFrame),
        framesPerBurst := old(parcelable.framesPerBurst),
        capacityInFrames := old(parcelable.capacityInFrames))
      ensures (Validate() == AAUDIO_OK) == (old(parcelable.Validate()) == AAUDIO_OK)
    {
      SetupMemoryFromTuples(getMemoryInfo(parcelable.dataParcelable, memoryIndexMap),
                            getMemoryInfo(parcelable.readCounterParcelable, memoryIndexMap),
                            getMemoryInfo(parcelable.writeCounterParcelable, memoryIndexMap));
      SetBytesPerFrame(parcelable.GetBytesPerFrame());
      SetFramesPerBurst(parcelable.GetFramesPerBurst());
      SetCapacityInFrames(parcelable.GetCapacityInFrames());
    }

    /** `validate()`: accepts exactly the geometries within bounds; every violation is
        reported as an internal error. */
    function Validate(): (r: ResultCode)
      reads this
      ensures r == AAUDIO_OK || r == AAUDIO_ERROR_INTERNAL
      ensures r == AAUDIO_OK <==> ValidGeometry(Value())
    {
      if capacityInFrames < 0 || capacityInFrames >= 32 * 1024 then AAUDIO_ERROR_INTERNAL
      else if bytesPerFrame < 0 || bytesPerFrame >= 256 then AAUDIO_ERROR_INTERNAL
      else if framesPerBurst < 0 || framesPerBurst >= 16 * 1024 then AAUDIO_ERROR_INTERNAL
      else AAUDIO_OK
    }
  }

  /** A descriptor whose state came from a wire record converts back to that very record. */
  lemma ParcelableInverse(p: RingBufferParcelable, w: RingBuffer)
    requires p.Value() == FromWire(w)
    ensures p.Parcelable() == w
  {
  }

  /** Resolution looks only at the regions: geometry and flags never change its result or
      the addresses it writes. */
  lemma ResolveIgnoresGeometry<M>(v: ParcelableValue, u: ParcelableValue, memoryParcels: M,
                                  resolveRegion: RegionResolver<M>, d: DescriptorValue)
    requires SameRegions(v, u)
    ensures ResolveInto(v, memoryParcels, resolveRegion, d).result ==
            ResolveInto(u, memoryParcels, resolveRegion, d).result
    ensures ResolveInto(v, memoryParcels, resolveRegion, d).descriptor.(
              bytesPerFrame := 0, framesPerBurst := 0, capacityInFrames := 0, flags := 0) ==
            ResolveInto(u, memoryParcels, resolveRegion, d).descriptor.(
              bytesPerFrame := 0, framesPerBurst := 0, capacityInFrames := 0, flags := 0)
  {
  }

  /** Validation and resolution are independent checks: whatever result resolving a
      descriptor gives, some descriptor with the same regions and out-of-bounds geometry
      gives that result too, and so does one with geometry in bounds. */
  lemma ValidationIndependentOfResolution<M>(v: ParcelableValue, memoryParcels: M,
                                             resolveRegion: RegionResolver<M>, d: DescriptorValue)
    ensures exists u ::
              && SameRegions(v, u) && !ValidGeometry(u)
              && ResolveInto(u, memoryParcels, resolveRegion, d).result ==
                 ResolveInto(v, memoryParcels, resolveRegion, d).result
    ensures exists u ::
              && SameRegions(v, u) && ValidGeometry(u)
              && ResolveInto(u, memoryParcels, resolveRegion, d).result ==
                 ResolveInto(v, memoryParcels, resolveRegion, d).result
  {
    var invalid := v.(capacityInFrames := CAPACITY_IN_FRAMES_LIMIT);
    ResolveIgnoresGeometry(v, invalid, memoryParcels, resolveRegion, d);
    var valid := v.(capacityInFrames := 0, bytesPerFrame := 0, framesPerBurst := 0);
    ResolveIgnoresGeometry(v, valid, memoryParcels, resolveRegion, d);
  }
}
