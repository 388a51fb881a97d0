/** The execution environment the device factory populates before any device object
    exists: one shared hardware-capability description, one root-device environment
    per discovered (or simulated) hardware unit, the OS-context budget and the memory
    manager's initialisation state. The hardware-capability tables and the routines
    that fill a description are collaborators, given as the functions of
    HwInfoServices. */
module Environment {
  import opened Optional
  import Bits

  type Int32 = x: int | -0x8000_0000 <= x < 0x8000_0000
  type Uint32 = x: nat | x < 0x1_0000_0000
  type Uint64 = x: nat | x < 0x1_0000_0000_0000_0000

  /** static_cast of a signed 32-bit value to uint32_t (two's complement wrap-around). */
  function AsUint32(x: Int32): (r: Uint32)
    ensures x >= 0 ==> r == x
    ensures x < 0 ==> r == x + Bits.Two32
  {
    if x >= 0 then x else x + Bits.Two32
  }

  /** static_cast of a signed 32-bit value to uint64_t (two's complement wrap-around). */
  function AsUint64(x: Int32): (r: Uint64)
    ensures x >= 0 ==> r == x
    ensures x < 0 ==> r == x + Bits.Two64
  {
    if x >= 0 then x else x + Bits.Two64
  }

  type ProductFamily = nat

  /** An opaque identifier of one piece of hardware found by OS discovery. */
  type HwDeviceId = nat

  /** The hardware-capability description. Only the fields this core reads or writes
      are named; everything the platform tables and configuration routines fill in
      besides them is kept, uninterpreted, in gtSystemInfo. */
  datatype HardwareInfo = HardwareInfo(
    productFamily: ProductFamily,
    gtSystemInfo: seq<nat>,
    ftrE2ECompression: bool,
    gpuAddressSpace: nat)

  /** The simulation center of one root-device environment, with the arguments
      initAubCenter received. */
  datatype AubCenter = AubCenter(localMemoryEnabled: bool, aubFileName: string, csrType: Int32)

  datatype MemoryOperations = NoMemoryOperations | AubMemoryOperations(center: AubCenter)

  /** One root-device environment: its OS-interface binding (the hardware identifier
      it was bound to), its simulation center and its memory-operations interface. */
  datatype RootDeviceEnvironment = RootDeviceEnvironment(
    osInterface: Option<HwDeviceId>,
    aubCenter: Option<AubCenter>,
    memoryOperations: MemoryOperations)
  {
    predicate OsBound() { osInterface.Some? }
    predicate HasAubCenter() { aubCenter.Some? }
    predicate HasAubMemoryOperations() { memoryOperations.AubMemoryOperations? }
  }

  const EmptyRootDeviceEnvironment := RootDeviceEnvironment(None, None, NoMemoryOperations)

  /** The hardware-capability collaborators the device factory calls. */
  datatype HwInfoServices = HwInfoServices(
    // DEFAULT_PLATFORM::hwInfo, used when the product-family string names no platform
    defaultPlatform: HardwareInfo,
    // getHwInfoForPlatformString: the description of the named platform, if any
    platformForString: string -> Option<HardwareInfo>,
    // defaultHardwareInfoConfigTable, indexed by product family
    defaultConfigTable: ProductFamily -> Uint64,
    // parseHwInfoConfigString: None when the string cannot be parsed
    parseConfigString: string -> Option<Uint64>,
    // setHwInfoValuesFromConfig
    setValuesFromConfig: (Uint64, HardwareInfo) -> HardwareInfo,
    // hardwareInfoSetup[productFamily](hwInfo, setupFeatureTableAndWorkaroundTable, config)
    hardwareInfoSetup: (ProductFamily, HardwareInfo, bool, Uint64) -> HardwareInfo,
    // HwInfoConfig::get(productFamily)->configureHardwareCustom(hwInfo, nullptr)
    configureHardwareCustom: (ProductFamily, HardwareInfo) -> HardwareInfo,
    // HwHelper::getEnableLocalMemory
    enableLocalMemory: HardwareInfo -> bool,
    // the budget calculateMaxOsContextCount derives from the description and the
    // number of root-device environments
    maxOsContextCount: (HardwareInfo, nat) -> nat)

  class ExecutionEnvironment {
    var rootDeviceEnvironments: seq<RootDeviceEnvironment>
    var hardwareInfo: HardwareInfo
    var maxOsContextCount: nat
    var memoryManagerInitialized: bool
    /** The description, the root-device environments and the OS-context budget as
        they stood when the memory manager was initialised. */
    ghost var memoryManagerSaw: Option<(HardwareInfo, seq<RootDeviceEnvironment>, nat)>

    constructor (hwInfo: HardwareInfo)
      ensures rootDeviceEnvironments == [] && hardwareInfo == hwInfo
      ensures maxOsContextCount == 0 && !memoryManagerInitialized && memoryManagerSaw == None
    {
      rootDeviceEnvironments := [];
      hardwareInfo := hwInfo;
      maxOsContextCount := 0;
      memoryManagerInitialized := false;
      memoryManagerSaw := None;
    }

    /** The memory manager was initialised with the current state in place. */
    ghost predicate InitializedWithCurrentState()
      reads this
    {
      memoryManagerInitialized && memoryManagerSaw == Some((hardwareInfo, rootDeviceEnvironments, maxOsContextCount))
    }

    /** Installs n empty root-device environments. */
    method PrepareRootDeviceEnvironments(n: nat)
      modifies this
      ensures |rootDeviceEnvironments| == n
      ensures forall i :: 0 <= i < n ==> rootDeviceEnvironments[i] == EmptyRootDeviceEnvironment
      ensures hardwareInfo == old(hardwareInfo) && maxOsContextCount == old(maxOsContextCount)
      ensures memoryManagerInitialized == old(memoryManagerInitialized) && memoryManagerSaw == old(memoryManagerSaw)
    {
      rootDeviceEnvironments := seq(n, _ => EmptyRootDeviceEnvironment);
    }

    method CalculateMaxOsContextCount(services: HwInfoServices)
      modifies this
      ensures maxOsContextCount == services.maxOsContextCount(hardwareInfo, |rootDeviceEnvironments|)
      ensures rootDeviceEnvironments == old(rootDeviceEnvironments) && hardwareInfo == old(hardwareInfo)
      ensures memoryManagerInitialized == old(memoryManagerInitialized) && memoryManagerSaw == old(memoryManagerSaw)
    {
      maxOsContextCount := services.maxOsContextCount(hardwareInfo, |rootDeviceEnvironments|);
    }

    /** Initialises the memory manager over the current description, environments
        and budget. */
    method InitializeMemoryManager()
      modifies this
      ensures memoryManagerInitialized
      ensures memoryManagerSaw == Some((hardwareInfo, rootDeviceEnvironments, maxOsContextCount))
      ensures rootDeviceEnvironments == old(rootDeviceEnvironments) && hardwareInfo == old(hardwareInfo)
      ensures maxOsContextCount == old(maxOsContextCount)
    {
      memoryManagerInitialized := true;
      memoryManagerSaw := Some((hardwareInfo, rootDeviceEnvironments, maxOsContextCount));
    }
  }
}
