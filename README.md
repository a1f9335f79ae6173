# AAudio ring-buffer descriptor binding, in Dafny

This project models `RingBufferParcelable`. It is the descriptor an AAudio service sends a
client to describe a lock-free ring buffer that lives in shared memory. The descriptor holds
three region references: the read counter, the write counter and the data. Each reference is
a shared-memory index, a byte offset and a byte size. It also holds a geometry: bytes per
frame, frames per burst, capacity in frames, and a flags word.

The model covers these operations:

- converting to and from the plain wire record `RingBuffer`;
- the three `setupMemory` layout conventions;
- the getters and setters;
- `validate`, the bounds check on the geometry;
- `resolve`, which turns the regions into addresses in a caller-supplied
  `RingBufferDescriptor`;
- `updateMemory`, which rebinds the segment indices through an index map.

Files:

- `aaudio_types.dfy` (module `AAudioTypes`): 32-bit integer types and the result codes
  `AAUDIO_OK` (0) and `AAUDIO_ERROR_INTERNAL` (-896). It also holds the two `static_cast`s
  between the 32-bit signed wire word and the 32-bit unsigned `RingbufferFlags`. Each cast
  keeps the bit pattern, and each undoes the other.
- `shared_regions.dfy` (module `SharedRegions`): a region as a value. This covers the
  region's wire record and its (index, offset, size) tuple. It also defines the two region
  operations that the core calls but does not define. Each is a function-typed parameter:
  - `RegionResolver<M>` resolves a region against a segment table of any type `M`, giving
    either `Resolved(address)` or `Failed(code)` with a code other than `AAUDIO_OK`;
  - `MemoryInfoFunction` maps a region and an index map to a tuple.
- `ring_buffer_parcelable.dfy` (module `RingBuffers`): the wire record `RingBuffer`, and the
  class `RingBufferParcelable` with one field per member of the C++ class.
  - `Value()` returns all of an object's fields as one value.
  - Every method that changes the object gives its new `Value()` in terms of the old one, so
    each one also says that nothing else changes.
  - `ResolveInto` is a pure function that says what `resolve` returns and what it leaves in
    the caller's descriptor. The method `Resolve` fills a `RingBufferDescriptor` object in
    place and is proved equal to it.

Points of behaviour worth knowing:

- `validate` returns the single code `AAUDIO_ERROR_INTERNAL` for whichever bound it violates.
- A failure after an earlier region resolved leaves that region's address in the caller's
  descriptor. The geometry and flags are written only when all three regions succeed.
- `updateMemory` copies the source's geometry but not its flags.
- A missing index-map entry is up to `getMemoryInfo`. That function is abstract here, so the
  model does not choose a policy.

## Model

| member | source | states |
|---|---|---|
| `AAudioTypes.FlagsFromWire` | media/libaaudio/src/binding/RingBufferParcelable.cpp:39-40 | the wire word read as flags has the same 32-bit pattern, which fixes a single flags value (`SameBitsDeterminesUnsigned`) |
| `AAudioTypes.FlagsToWire` | media/libaaudio/src/binding/RingBufferParcelable.cpp:51-52 | the flags written as a wire word have the same 32-bit pattern, which fixes a single wire word (`SameBitsDeterminesSigned`) |
| `AAudioTypes.FlagsWireRoundTrip` | media/libaaudio/src/binding/RingBufferParcelable.cpp:39-52 | casting a wire word to flags and back gives the original word |
| `AAudioTypes.FlagsValueRoundTrip` | media/libaaudio/src/binding/RingBufferParcelable.cpp:39-52 | casting flags to a wire word and back gives the original flags |
| `SharedRegions.RegionRoundTrip` | media/libaaudio/src/binding/RingBufferParcelable.cpp:33-47 | a region's own wire conversion loses nothing in either direction |
| `RingBuffers.RingBufferParcelable.constructor` | media/libaaudio/src/binding/RingBufferParcelable.cpp:32-41 | the new state is the wire record's regions, geometry and reinterpreted flags, and `Parcelable()` then gives back the same record |
| `RingBuffers.RingBufferParcelable.Parcelable` | media/libaaudio/src/binding/RingBufferParcelable.cpp:43-54 | the wire record it produces decodes, through the wire constructor, to exactly this object's state |
| `RingBuffers.ParcelableInverse` | media/libaaudio/src/binding/RingBufferParcelable.cpp:32-54 | any object whose state was built from a wire record converts back to that record field for field, including each region's own round trip |
| `RingBuffers.RingBufferParcelable.SetupMemory` | media/libaaudio/src/binding/RingBufferParcelable.cpp:56-66 | all three regions use the one index: the read counter at its offset, the write counter at its offset (both of the counter size) and the data at its offset and size; geometry and flags are unchanged |
| `RingBuffers.RingBufferParcelable.SetupMemoryDataOnly` | media/libaaudio/src/binding/RingBufferParcelable.cpp:68-74 | both counter regions become (index, 0, 0) and the data region (index, offset, size); nothing else changes |
| `RingBuffers.RingBufferParcelable.SetupMemoryFromTuples` | media/libaaudio/src/binding/RingBufferParcelable.cpp:76-83 | data, read counter and write counter come from the first, second and third tuple, with no roles swapped; nothing else changes |
| `RingBuffers.RingBufferParcelable.SetBytesPerFrame` | media/libaaudio/src/binding/RingBufferParcelable.cpp:85-91 | setter with its getter `GetBytesPerFrame`: only bytes-per-frame changes, and `GetBytesPerFrame()` afterwards returns the value set |
| `RingBuffers.RingBufferParcelable.SetFramesPerBurst` | media/libaaudio/src/binding/RingBufferParcelable.cpp:93-99 | setter with its getter `GetFramesPerBurst`: only frames-per-burst changes, and `GetFramesPerBurst()` afterwards returns the value set |
| `RingBuffers.RingBufferParcelable.SetCapacityInFrames` | media/libaaudio/src/binding/RingBufferParcelable.cpp:101-107 | setter with its getter `GetCapacityInFrames`: only capacity-in-frames changes, and `GetCapacityInFrames()` afterwards returns the value set |
| `RingBuffers.ResolveInto` | media/libaaudio/src/binding/RingBufferParcelable.cpp:109-134 | success exactly when all three regions resolve. Otherwise the result is the code of the first failing region, in the order read counter, write counter, data. Each address slot is written only when its region and all earlier ones resolved. Geometry and flags are copied verbatim only on success and are otherwise left as the caller had them |
| `RingBuffers.RingBufferParcelable.Resolve` | media/libaaudio/src/binding/RingBufferParcelable.cpp:109-134 | the returned code and the caller's descriptor afterwards are exactly what `ResolveInto` gives for this object and the descriptor's old contents |
| `RingBuffers.ResolveIgnoresGeometry` | media/libaaudio/src/binding/RingBufferParcelable.cpp:109-128 | two descriptors with the same regions get the same result and the same addresses, whatever their geometry and flags |
| `RingBuffers.RingBufferParcelable.UpdateMemory` | media/libaaudio/src/binding/RingBufferParcelable.cpp:136-144 | each region becomes `getMemoryInfo(map)` of the source's region in the same role, and the geometry is copied from the source, even when the source is this object. The object's own flags stay. Because the geometry is copied, the object's validation verdict becomes the source's |
| `RingBuffers.RingBufferParcelable.Validate` | media/libaaudio/src/binding/RingBufferParcelable.cpp:146-160 | returns `AAUDIO_OK` exactly when 0 <= capacity < 32768, 0 <= bytes per frame < 256 and 0 <= frames per burst < 16384, and `AAUDIO_ERROR_INTERNAL` otherwise; it changes nothing |
| `RingBuffers.ValidationIndependentOfResolution` | media/libaaudio/src/binding/RingBufferParcelable.cpp:109-160 | for any resolution result, there is a descriptor with the same regions and invalid geometry that gets that result, and one with valid geometry that gets it too; so `resolve` never stands in for `validate` |

## Left out

- Logging (`ALOGE`, `ALOGD`) and `dump()`: these are diagnostics only.
- Binder `Parcelable` serialisation and the `static_assert` size checks. These are
  transport or compile-time concerns. The flags word is a 32-bit value carried across the
  casts unchanged.
- `SharedRegionParcelable.cpp` is not part of this model. Its region-level `resolve` and its
  `getMemoryInfo` are abstract function parameters. Its wire constructor, `parcelable()` and
  `setup(tuple)` are modelled as field-for-field copies of (index, offset, size).
- A failed region resolution is modelled as leaving its
  address slot as the caller had it. Whether the real region resolver writes the slot on
  failure depends on code that is not part of this model.
- Any effect of region resolution on the segment table. The source passes the table as a
  non-const pointer, but the model's resolver is a pure function of (region, table). Each
  region is resolved at most once per `resolve`, so no contract depends on this.
- Shared-memory mapping and pointer arithmetic (`SharedMemoryParcelable`). Addresses are
  opaque integers produced by the abstract resolver.
- The default constructor and the field defaults in `RingBufferParcelable.h`. That header is
  not part of this model; the model builds objects only through the wire constructor.
- The values `AAUDIO_ERROR_INTERNAL = -896` and `RingbufferFlags` being a 32-bit unsigned
  enumeration come from AAudio headers that are not part of this model.
