/** A region of a shared-memory segment, as the ring-buffer descriptor refers to it:
    a segment index, a byte offset into that segment and a byte size. The region's
    own resolution and index remapping are supplied from outside as functions. */
module SharedRegions {
  import opened AAudioTypes

  /** The plain wire record of a region. */
  datatype SharedRegion = SharedRegion(sharedMemoryIndex: int32, offsetInBytes: int32, sizeInBytes: int32)

  /** `SharedRegionParcelable::MemoryInfoTuple`: (index, offset, size). */
  type MemoryInfoTuple = (int32, int32, int32)

  /** The in-process value of a region (`SharedRegionParcelable`). */
  datatype SharedRegionParcelable =
    SharedRegionParcelable(sharedMemoryIndex: int32, offsetInBytes: int32, sizeInBytes: int32)
  {
    /** The region rebuilt from its wire record. */
    static function FromWire(w: SharedRegion): (r: SharedRegionParcelable) {
      SharedRegionParcelable(w.sharedMemoryIndex, w.offsetInBytes, w.sizeInBytes)
    }

    /** `setup(MemoryInfoTuple)`: the region described by an (index, offset, size) tuple. */
    static function Setup(info: MemoryInfoTuple): (r: SharedRegionParcelable) {
      SharedRegionParcelable(info.0, info.1, info.2)
    }

    /** `parcelable()`: the wire record of this region. */
    function Parcelable(): (w: SharedRegion) {
      SharedRegion(sharedMemoryIndex, offsetInBytes, sizeInBytes)
    }
  }

  /** An address in this process; what it points at is not modelled. */
  type Address = int

  /** What resolving one region yields: success with the region's address, or an error code. */
  datatype RegionResolution = Resolved(address: Address) | Failed(code: ErrorCode)

  /** `SharedRegionParcelable::resolve` against a table of shared-memory segments of type M. */
  type RegionResolver<-M> = (SharedRegionParcelable, M) -> RegionResolution

  /** `SharedRegionParcelable::getMemoryInfo`: the region's tuple, rebound through an index map. */
  type MemoryInfoFunction = (SharedRegionParcelable, map<int32, int32>) -> MemoryInfoTuple

  /** A region survives a trip through its wire record. */
  lemma RegionRoundTrip(r: SharedRegionParcelable, w: SharedRegion)
    ensures SharedRegionParcelable.FromWire(r.Parcelable()) == r
    ensures SharedRegionParcelable.FromWire(w).Parcelable() == w
  {
  }
}
