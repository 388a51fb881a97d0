# Device bring-up: root devices and device discovery

A Dafny model of the device bring-up layer of a compute/graphics accelerator driver
(the NEO compute runtime). It covers two pieces of sequential orchestration:

- **RootDevice** (`core/device/root_device.cpp`): a root device owns a sequence of
  sub-devices (tiles) and holds one internal reference of each. It answers index and
  bitfield queries over that sequence, builds it with a fail-fast loop, and brings up
  either the base per-device engines or exactly one aggregate root engine (a
  command-stream receiver bound to an OS context over the whole device bitfield).
- **DeviceFactory** (`core/os_interface/device_factory.cpp`): `isHwModeSelected`,
  the real-hardware discovery path `getDevices`, the debug-driven product-family
  override path `getDevicesForProductFamilyOverride`, and `createDevices`, which runs
  discovery and keeps the non-null results of the replaceable root-device
  construction hook in index order.

Files and modules:

| file | module | contents |
|---|---|---|
| optional.dfy | Optional | `Option` |
| bits.dfy | Bits | `Pow2`, `MaxNBitValue` (maxNBitValue, 2^n − 1), `Bit`, the uint32 cast, lemmas on set bits |
| environment.dfy | Environment | fixed-width integer types and casts, `HardwareInfo`, `RootDeviceEnvironment`, the hardware-description collaborators `HwInfoServices`, class `ExecutionEnvironment` |
| engines.dfy | Engines | `OsContext`, class `CommandStreamReceiver`, `EngineControl`, class `MemoryManager` with its OS-context registry |
| root_device.dfy | RootDevices | class `SubDevice` (internal reference counter), class `RootDevice`, the collaborators `DeviceServices` |
| device_factory.dfy | DeviceFactory | `DebugFlags`, both discovery paths, the construction hook, `CreateDevices` |

State that the source changes in place is a class: `RootDevice` (its `subdevices`,
`engines` and `commandStreamReceivers` sequences), `SubDevice` (`internalRefs`),
`ExecutionEnvironment` (its sequence of `RootDeviceEnvironment` records, the mutable
`HardwareInfo`, the OS-context budget and the `memoryManagerInitialized` flag, with
a ghost record of the state the memory manager was initialised over, so that the
contracts say it is initialised last),
`CommandStreamReceiver` and `MemoryManager`. The loops of the source are `while`
loops with invariants; each state-changing method states the whole new state in
terms of specification functions (`FirstFailedSubDevice`, `FirstUnbound`,
`PresentIndices`, `ResolveConfig`, `ConfiguredHardwareInfo`, `OverrideEnvironment`,
`WithAddressSpaceOverride`, `EnvironmentCount`, and the two-state predicate
`DiscoveryEffect` for what discovery leaves behind), and the properties are proved about those functions.

Collaborators the core calls but does not define are function values inside
records passed as parameters. The model relies on nothing about them beyond their
type, except that `OverrideDisablesCompression` names the one assumption it needs
(`CustomConfigKeepsCompression`):

- `HwInfoServices`: the platform tables, `getHwInfoForPlatformString`,
  `defaultHardwareInfoConfigTable`, `parseHwInfoConfigString`,
  `setHwInfoValuesFromConfig`, `hardwareInfoSetup`, `configureHardwareCustom`,
  `HwHelper::getEnableLocalMemory`, and the budget `calculateMaxOsContextCount`
  computes.
- `DeviceServices`: `HwHelper::getSubDevicesCount`, whether `Device::create<SubDevice>`
  succeeds, the outcomes of the base `Device::createDeviceImpl` and
  `Device::createEngines`, `getChosenEngineType` and
  `PreemptionHelper::getDefaultPreemptionMode`.
- `OsDiscovery`: the identifiers `OSInterface::discoverDevices` returns and whether
  `initOsInterface` binds each of them.

The global debug settings are the explicit record `DebugFlags`:
CreateMultipleRootDevices, ProductFamilyOverride, the hardware-info override string,
SetCommandStreamReceiver and OverrideGpuAddressSpace.

Modelling choices:

- `getDevices` sets `totalNumRootDevices` to the number of discovered identifiers
  before binding, so a bind failure returns false with that count, not zero; the
  model follows the code.
- The receiver-type values (CSR_HW 0, CSR_AUB 1, CSR_TBX 2, CSR_HW_WITH_AUB 3,
  CSR_TBX_WITH_AUB 4) come from the driver's receiver-type enumeration, which is
  not part of this model. CSR_HW_WITH_AUB is positive yet selects hardware mode.
- `createDevices` calls the free function `NEO::getDevices`, which is not part of
  this model; `Discover` models it as the real-hardware path when
  `isHwModeSelected` holds and the override path otherwise.
- `ExecutionEnvironment::prepareRootDeviceEnvironments` is not part of this model;
  it is modelled as installing n empty environments (its effect on a new execution
  environment).
- `Device::create` is not part of this model; the default hook models it as
  constructing the root device, running `createDeviceImpl`, and on failure deleting
  the device (running the destructor) and returning null. So after a partial
  sub-device failure the destructor releases every internal reference that
  `createDeviceImpl` took (`DefaultCreateRootDevice`).
- A root device keeps a copy of the execution environment's hardware description
  taken at construction, as `getHardwareInfo` would read it.

## Model

| member | source | states |
|---|---|---|
| Bits.MaxNBitValue | core/device/root_device.cpp:83 | maxNBitValue(n) is 2^n − 1, the largest value below 2^n; 0 for n = 0 |
| Bits.Truncate32 | core/device/root_device.cpp:83 | the static_cast to uint32 keeps the value modulo 2^32: the result is below 2^32 and values already below 2^32 are unchanged |
| Environment.AsUint32 | core/os_interface/device_factory.cpp:27 | an int32 converted to uint32 keeps non-negative values and wraps negative ones by adding 2^32 |
| Environment.AsUint64 | core/os_interface/device_factory.cpp:70 | the static_cast of an int32 to uint64 keeps non-negative values and wraps negative ones by adding 2^64 |
| Bits.MaxNBitValueBits | core/device/root_device.cpp:82-85 | bit i of maxNBitValue(n) is set exactly when i < n, for every i |
| Bits.TruncatedMaxNBitValue | core/device/root_device.cpp:83 | casting maxNBitValue(n) to uint32 gives maxNBitValue(min(n, 32)) |
| Bits.TruncatedMaskBits | core/device/root_device.cpp:83 | for each of the 32 bit positions, the uint32 bitfield of n units has the bit set exactly when the position is below n |
| RootDevices.SubDeviceCount | core/device/root_device.cpp:58-61 | a reported sub-unit count of 1 becomes 0, any other count is kept, so a root device never has exactly one sub-device |
| RootDevices.FirstFailedSubDevice | core/device/root_device.cpp:64-69 | the first sub-device index whose creation fails (or the count): every earlier creation succeeds and the one at the index fails |
| RootDevices.RootDevice.constructor | core/device/root_device.cpp:20 | a new root device has its index, no sub-devices, no engines and no receivers |
| RootDevices.RootDevice.NumSubDevices | core/device/root_device.cpp:30-32 | the number of entries of the sub-device sequence, null entries included; 0 exactly when there are none |
| RootDevices.BuiltDeviceSubDeviceCount | core/device/root_device.cpp:57-63 | once built, a root device has 0 sub-devices when the hardware reports at most one sub-unit, otherwise that many, and never exactly one |
| RootDevices.RootDevice.NumAvailableDevices | core/device/root_device.cpp:38-43 | 1 without sub-devices, otherwise the sub-device count; always at least 1 |
| RootDevices.RootDevice.GetDeviceById | core/device/root_device.cpp:45-51 | for an id below the available count: the root itself (id 0) without sub-devices, otherwise the sub-device entry at that id; an id out of range is excluded |
| RootDevices.RootDevice.IsReleasable | core/device/root_device.cpp:79-81 | a root device is never releasable |
| RootDevices.RootDevice.DeviceBitfield | core/device/root_device.cpp:82-85 | below 2^32, equal to 2^N − 1 for N ≤ 32 available units, and bit i (i < 32) set exactly when unit i exists |
| RootDevices.RootDevice.CreateSubDevice | core/device/root_device.cpp:53-55 | a fresh sub-device with that index and this root, holding no reference yet, exactly when creation succeeds; null otherwise |
| RootDevices.RootDevice.CreateDeviceImpl | core/device/root_device.cpp:57-78 | requires an empty sub-device sequence; leaves it with the sub-device count (0 for a count of 1); entries before the first failed creation are fresh, distinct, at their index and incremented exactly once, the rest null; succeeds exactly when every creation and the base step succeed, and then the device is fully built |
| RootDevices.RootDevice.Destroy | core/device/root_device.cpp:22-28 | decrements the internal reference of every non-null entry exactly once and skips null entries |
| RootDevices.RootDevice.InitializeRootCommandStreamReceiver | core/device/root_device.cpp:96-111 | engines and receivers each grow by one, earlier entries unchanged; the new engine pairs a fresh receiver for this root index with a context registered once, with the chosen engine type, the whole device bitfield, the default preemption mode and not low priority; the receiver is bound to it and has its tag and global fence allocations |
| RootDevices.RootDevice.CreateEngines | core/device/root_device.cpp:87-94 | fewer than two sub-devices: the base path's outcome; two or more: success, earlier engines and receivers unchanged, and exactly one new root engine whose receiver is fresh, for this root index, bound to a context registered once with the chosen engine type, the device bitfield, the default preemption mode and not low priority, with tag and global fence allocations |
| RootDevices.AddressableIffBitSet | core/device/root_device.cpp:38-51 | a unit id below 32 is a valid getDeviceById argument exactly when its bit in getDeviceBitfield is set |
| RootDevices.GetDeviceByIdOnBuiltDevice | core/device/root_device.cpp:45-51 | on a fully built device with sub-devices, every id in range resolves to a non-null sub-device carrying that index, and distinct ids to distinct sub-devices |
| DeviceFactory.IsHwModeSelected | core/os_interface/device_factory.cpp:77-87 | false exactly for CSR_AUB, CSR_TBX and CSR_TBX_WITH_AUB; so true for every value ≤ 0, and false only for positive values |
| DeviceFactory.RootDeviceCount | core/os_interface/device_factory.cpp:25-28 | 1 when CreateMultipleRootDevices is 0, otherwise the flag converted to uint32 (negative values wrap); never 0 |
| DeviceFactory.BaseHardwareInfo | core/os_interface/device_factory.cpp:31-33 | the platform named by ProductFamilyOverride when it names one, otherwise the default platform |
| DeviceFactory.ResolveConfig | core/os_interface/device_factory.cpp:42-46 | "default" selects the product family's default-table entry; any other string gives the parser's result, and only a non-"default" string can fail |
| DeviceFactory.ConfiguredHardwareInfo | core/os_interface/device_factory.cpp:47-53 | after the config values, the base family's setup routine, clearing compression and the custom configuration, compression is off whenever the custom configuration keeps it |
| DeviceFactory.WithAddressSpaceOverride | core/os_interface/device_factory.cpp:68-71 | override -1 keeps the GPU address space, an override n ≥ 0 sets it to 2^n − 1; no other field changes |
| DeviceFactory.OverrideEnvironment | core/os_interface/device_factory.cpp:57-66 | a simulated environment has no OS binding; it has an AUB center and AUB memory operations exactly when csrType > 0, the center carrying the local-memory setting and the receiver type, and the memory operations using that center |
| DeviceFactory.OverrideDisablesCompression | core/os_interface/device_factory.cpp:49-53 | when the custom hardware configuration keeps the compression flag, the configured description (after any address-space override) has ftrE2ECompression off |
| DeviceFactory.OverrideModeHasAubCenters | core/os_interface/device_factory.cpp:58-66 | whenever hardware mode is not selected, each override environment gets an AUB center and AUB memory operations |
| DeviceFactory.GetDevicesForProductFamilyOverride | core/os_interface/device_factory.cpp:24-75 | prepares RootDeviceCount environments; fails exactly when the config string does not parse, then with numDevices 0, the base description copied in, and neither context budget nor memory manager touched; on success numDevices is the root-device count, the description is the configured one with the address-space override, every environment is the override environment, and the memory manager is initialised last, over that final description, those environments and the budget; compression is off when the custom step keeps it |
| DeviceFactory.FirstUnbound | core/os_interface/device_factory.cpp:102-108 | the position of the first identifier that fails to bind (or the count): all earlier ones bind and the one there fails |
| DeviceFactory.GetDevices | core/os_interface/device_factory.cpp:89-119 | totalNumRootDevices is the number of discovered ids; no ids: fails and prepares nothing; otherwise K environments, those before the first bind failure bound to their id in order and the rest unbound; succeeds exactly when all bind, and only then computes the budget, applies the address-space override and, last, initialises the memory manager over that final state |
| DeviceFactory.EnvironmentCount | core/os_interface/device_factory.cpp:25-98 | the environment count discovery prepares: the number of discovered identifiers on real hardware (lines 92-98), RootDeviceCount, at least 1, in simulation (lines 25-29) |
| DeviceFactory.Discover | core/os_interface/device_factory.cpp:124 | succeeds exactly when the selected path succeeds, and then reports one device per environment, EnvironmentCount of them and at least one, with the memory manager initialised last over the final state; on failure the memory manager and the context budget are untouched; the environments, the hardware description and the budget are those the selected path leaves (bound up to the first bind failure, or the override environments and the configured description) |
| DeviceFactory.PresentIndices | core/os_interface/device_factory.cpp:128-133 | the indices below n for which the hook yields a device, in loop order: each one is below n and yields a device, and there are at most n of them |
| DeviceFactory.PresentIndicesAscendingAndComplete | core/os_interface/device_factory.cpp:128-133 | the present indices are strictly ascending and include every index below n for which the hook yields a device |
| DeviceFactory.NullHookResultIsOmitted | core/os_interface/device_factory.cpp:128-133 | a hook returning null for index 2 of three leaves exactly the devices of indices 0 and 1, in order |
| DeviceFactory.DefaultCreateRootDevice | core/os_interface/device_factory.cpp:137-139 | a fresh root device for the index, returned fully built exactly when createDeviceImpl succeeds; otherwise null, and every sub-device it had created is back to zero internal references |
| DeviceFactory.ConstructDevice | core/os_interface/device_factory.cpp:129 | one hook call: non-null exactly when the hook yields a device; a replaced hook's own result; a default-hook device fresh, built and at that index |
| DeviceFactory.ConstructDevices | core/os_interface/device_factory.cpp:128-133 | the kept devices correspond one-to-one, in order, to the ascending indices that yield a device |
| DeviceFactory.CreateDevices | core/os_interface/device_factory.cpp:121-135 | leaves exactly the execution-environment state discovery leaves; empty when discovery fails; otherwise there are EnvironmentCount environments and the result is exactly the hook's non-null results for indices 0..EnvironmentCount−1 in ascending order, hence no more devices than environments |
| DeviceFactory.CreateDevicesSkipsNullResult | core/os_interface/device_factory.cpp:121-135 | three simulated root devices, a configuration that parses and a hook returning null for index 2 give three environments and exactly the devices of indices 0 and 1, in order |

## Left out

- Atomic reference counting and all concurrency: `internalRefs` is a plain integer, and `decRefInternal` deleting the object when no reference is left is not modelled.
- `RootDevices.RootDevice.CreateEngines`: the engines the base `Device::createEngines` creates are not modelled; for fewer than two sub-devices only its outcome is.
- `RootDevices.RootDevice.CreateDeviceImpl`: what the base `Device::createDeviceImpl` does besides returning its outcome is not modelled.
- `DeviceFactory.OverrideDisablesCompression`: compression being off is proved only under the assumption that `configureHardwareCustom` keeps the flag, since `configureHardwareCustom` is a collaborator outside this model.
- `Bits.MaxNBitValue` is the mathematical 2^n − 1: the 64-bit width of the source's result (and shifts by 64 or more, which an OverrideGpuAddressSpace value of 64 or more, or a negative value other than −1, produces) is not modelled.
- The uint32 cast of the sub-device count in `getNumSubDevices` is not modelled (counts are unbounded).
- The uint32 narrowing in `getDevices` and `createDevices` is not modelled (environment counts are unbounded): `static_cast<uint32_t>(totalNumRootDevices)` passed to `prepareRootDeviceEnvironments`, and the `uint32_t` loop counters `rootDeviceIndex`.
- `getRootDeviceIndex` (root_device.cpp:34-36) is the constant field `rootDeviceIndex`.
- What `initOsInterface` does besides succeeding or failing (creating the OS interface, querying the hardware description) is not modelled; a failed binding binds nothing.
- A replaced construction hook is a pure function of the index; side effects of a replacement hook are not modelled.
- `std::unique_ptr` ownership transfer is not modelled; only membership in the sequences is.
- The memory manager's internals, the AUB center's initialisation, the trace file and the OS-context budget formula are collaborators.
