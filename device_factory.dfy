/** Device discovery: the real-hardware path (OS discovery, one environment bound per
    hardware identifier), the debug-driven product-family override path (a simulated
    hardware description, AUB centers when a simulation receiver is requested), and
    createDevices, which runs discovery and then the replaceable root-device
    construction hook once per environment. */
module DeviceFactory {
  import opened Optional
  import opened Bits
  import opened Environment
  import opened RootDevices

  /** Command-stream-receiver types (CommandStreamReceiverType). */
  const CSR_HW: Int32 := 0
  const CSR_AUB: Int32 := 1
  const CSR_TBX: Int32 := 2
  const CSR_HW_WITH_AUB: Int32 := 3
  const CSR_TBX_WITH_AUB: Int32 := 4

  /** The debug settings this core reads, passed in instead of read from global state. */
  datatype DebugFlags = DebugFlags(
    createMultipleRootDevices: Int32,
    productFamilyOverride: string,
    hardwareInfoOverride: string,
    setCommandStreamReceiver: Int32,
    overrideGpuAddressSpace: Int32)

  /** OS device discovery and the OS-interface binding of one environment. */
  datatype OsDiscovery = OsDiscovery(
    discovered: seq<HwDeviceId>,
    initOsInterface: HwDeviceId -> bool)

  /** Real hardware is selected unless the receiver type names a simulation that
      replaces the hardware (AUB, TBX or TBX with AUB). */
  function IsHwModeSelected(flags: DebugFlags): (r: bool)
    ensures !r <==> flags.setCommandStreamReceiver in {CSR_AUB, CSR_TBX, CSR_TBX_WITH_AUB}
    ensures flags.setCommandStreamReceiver <= CSR_HW ==> r
    ensures !r ==> flags.setCommandStreamReceiver > 0
  {
    var csr := flags.setCommandStreamReceiver;
    if csr == CSR_AUB || csr == CSR_TBX || csr == CSR_TBX_WITH_AUB then false else true
  }

  // ----- the product-family override path -----

  /** The number of simulated root devices: 1 unless CreateMultipleRootDevices is
      set, in which case its value converted to uint32. Never 0. */
  function RootDeviceCount(flags: DebugFlags): (n: Uint32)
    ensures n >= 1
    ensures flags.createMultipleRootDevices == 0 ==> n == 1
    ensures flags.createMultipleRootDevices > 0 ==> n == flags.createMultipleRootDevices
    ensures flags.createMultipleRootDevices < 0 ==> n == flags.createMultipleRootDevices + Two32
  {
    if flags.createMultipleRootDevices != 0 then AsUint32(flags.createMultipleRootDevices) else 1
  }

  /** The platform description the override starts from: the one named by
      ProductFamilyOverride, or the default platform's when it names none. */
  function BaseHardwareInfo(services: HwInfoServices, flags: DebugFlags): (r: HardwareInfo)
    ensures services.platformForString(flags.productFamilyOverride).Some? ==>
      r == services.platformForString(flags.productFamilyOverride).value
    ensures services.platformForString(flags.productFamilyOverride).None? ==> r == services.defaultPlatform
  {
    match services.platformForString(flags.productFamilyOverride)
    case Some(hwInfo) => hwInfo
    case None => services.defaultPlatform
  }

  /** The hardware configuration: "default" takes the product family's entry of the
      default table, any other string is parsed, and a string that does not parse
      resolves to nothing. */
  function ResolveConfig(services: HwInfoServices, base: HardwareInfo, configString: string): (r: Option<Uint64>)
    ensures configString == "default" ==> r == Some(services.defaultConfigTable(base.productFamily))
    ensures configString != "default" ==> r == services.parseConfigString(configString)
    ensures r.None? ==> configString != "default"
  {
    if configString == "default" then Some(services.defaultConfigTable(base.productFamily))
    else services.parseConfigString(configString)
  }

  /** The description after applying the configuration: values from the config, the
      product family's setup routine, compression switched off, then the custom
      hardware configuration of the resulting product family. Compression stays off
      unless the custom configuration turns it back on. */
  function ConfiguredHardwareInfo(services: HwInfoServices, base: HardwareInfo, config: Uint64): (r: HardwareInfo)
    ensures CustomConfigKeepsCompression(services) ==> !r.ftrE2ECompression
  {
    var fromConfig := services.setValuesFromConfig(config, base);
    var setUp := services.hardwareInfoSetup(base.productFamily, fromConfig, true, config);
    services.configureHardwareCustom(setUp.productFamily, setUp.(ftrE2ECompression := false))
  }

  /** The contract the override path relies on: the custom hardware configuration
      does not turn compression back on. */
  ghost predicate CustomConfigKeepsCompression(services: HwInfoServices)
  {
    forall family, hwInfo :: services.configureHardwareCustom(family, hwInfo).ftrE2ECompression == hwInfo.ftrE2ECompression
  }

  /** OverrideGpuAddressSpace n, unless it is -1, sets the address space to
      maxNBitValue(n) of n converted to uint64; nothing else changes. */
  function WithAddressSpaceOverride(hwInfo: HardwareInfo, flags: DebugFlags): (r: HardwareInfo)
    ensures r.productFamily == hwInfo.productFamily && r.gtSystemInfo == hwInfo.gtSystemInfo
    ensures r.ftrE2ECompression == hwInfo.ftrE2ECompression
    ensures flags.overrideGpuAddressSpace == -1 ==> r.gpuAddressSpace == hwInfo.gpuAddressSpace
    ensures flags.overrideGpuAddressSpace >= 0 ==>
      r.gpuAddressSpace == MaxNBitValue(flags.overrideGpuAddressSpace)
  {
    if flags.overrideGpuAddressSpace != -1
    then hwInfo.(gpuAddressSpace := MaxNBitValue(AsUint64(flags.overrideGpuAddressSpace)))
    else hwInfo
  }

  /** Each simulated environment, after the override path: an AUB center and AUB
      memory operations when csrType > 0, neither otherwise. */
  function OverrideEnvironment(services: HwInfoServices, flags: DebugFlags, hwInfo: HardwareInfo): (e: RootDeviceEnvironment)
    ensures !e.OsBound()
    ensures e.HasAubCenter() <==> flags.setCommandStreamReceiver > 0
    ensures e.HasAubMemoryOperations() <==> flags.setCommandStreamReceiver > 0
    ensures e.HasAubCenter() ==>
      e.aubCenter.value.localMemoryEnabled == services.enableLocalMemory(hwInfo)
      && e.aubCenter.value.csrType == flags.setCommandStreamReceiver
      && e.memoryOperations.center == e.aubCenter.value
  {
    if flags.setCommandStreamReceiver > 0 then
      var center := AubCenter(services.enableLocalMemory(hwInfo), "", flags.setCommandStreamReceiver);
      RootDeviceEnvironment(None, Some(center), AubMemoryOperations(center))
    else EmptyRootDeviceEnvironment
  }

  predicate OverrideSucceeds(services: HwInfoServices, flags: DebugFlags)
  {
    ResolveConfig(services, BaseHardwareInfo(services, flags), flags.hardwareInfoOverride).Some?
  }

  /** Any successful override leaves end-to-end compression off. */
  lemma OverrideDisablesCompression(services: HwInfoServices, base: HardwareInfo, config: Uint64, flags: DebugFlags)
    requires CustomConfigKeepsCompression(services)
    ensures !WithAddressSpaceOverride(ConfiguredHardwareInfo(services, base, config), flags).ftrE2ECompression
  {
  }

  /** Whenever discovery takes the override path, every simulated environment gets
      an AUB center. */
  lemma OverrideModeHasAubCenters(services: HwInfoServices, flags: DebugFlags, hwInfo: HardwareInfo)
    requires !IsHwModeSelected(flags)
    ensures OverrideEnvironment(services, flags, hwInfo).HasAubCenter()
    ensures OverrideEnvironment(services, flags, hwInfo).HasAubMemoryOperations()
  {
  }

  method GetDevicesForProductFamilyOverride(env: ExecutionEnvironment, flags: DebugFlags, services: HwInfoServices)
    returns (ok: bool, numDevices: nat)
    modifies env
    ensures ok == OverrideSucceeds(services, flags)
    ensures numDevices == if ok then RootDeviceCount(flags) else 0
    ensures |env.rootDeviceEnvironments| == RootDeviceCount(flags)
    ensures !ok ==>
      && (forall i :: 0 <= i < |env.rootDeviceEnvironments| ==> env.rootDeviceEnvironments[i] == EmptyRootDeviceEnvironment)
      && env.hardwareInfo == BaseHardwareInfo(services, flags)
      && env.maxOsContextCount == old(env.maxOsContextCount)
      && env.memoryManagerInitialized == old(env.memoryManagerInitialized)
      && env.memoryManagerSaw == old(env.memoryManagerSaw)
    ensures ok ==>
      var base := BaseHardwareInfo(services, flags);
      var configured := ConfiguredHardwareInfo(services, base, ResolveConfig(services, base, flags.hardwareInfoOverride).value);
      && env.hardwareInfo == WithAddressSpaceOverride(configured, flags)
      && env.maxOsContextCount == services.maxOsContextCount(configured, RootDeviceCount(flags))
      && (forall i :: 0 <= i < |env.rootDeviceEnvironments| ==>
            env.rootDeviceEnvironments[i] == OverrideEnvironment(services, flags, configured))
      && env.InitializedWithCurrentState()
    ensures ok && CustomConfigKeepsCompression(services) ==> !env.hardwareInfo.ftrE2ECompression
  {
    var numRootDevices := RootDeviceCount(flags);
    env.PrepareRootDeviceEnvironments(numRootDevices);

    var hwInfoConst := BaseHardwareInfo(services, flags);
    numDevices := 0;
    env.hardwareInfo := hwInfoConst;

    var hwInfoConfig: Uint64;
    if flags.hardwareInfoOverride == "default" {
      hwInfoConfig := services.defaultConfigTable(hwInfoConst.productFamily);
    } else {
      var parsed := services.parseConfigString(flags.hardwareInfoOverride);
      if parsed.None? {
        return false, numDevices;
      }
      hwInfoConfig := parsed.value;
    }
    env.hardwareInfo := services.setValuesFromConfig(hwInfoConfig, env.hardwareInfo);
    env.hardwareInfo := services.hardwareInfoSetup(hwInfoConst.productFamily, env.hardwareInfo, true, hwInfoConfig);
    var family := env.hardwareInfo.productFamily;
    env.hardwareInfo := env.hardwareInfo.(ftrE2ECompression := false);
    env.hardwareInfo := services.configureHardwareCustom(family, env.hardwareInfo);
    ghost var configured := env.hardwareInfo;

    env.CalculateMaxOsContextCount(services);
    numDevices := numRootDevices;
    var csrType := flags.setCommandStreamReceiver;
    if csrType > 0 {
      var localMemoryEnabled := services.enableLocalMemory(env.hardwareInfo);
      var rootDeviceIndex := 0;
      while rootDeviceIndex < numRootDevices
        invariant 0 <= rootDeviceIndex <= numRootDevices
        invariant |env.rootDeviceEnvironments| == numRootDevices
        invariant env.hardwareInfo == configured
        invariant env.maxOsContextCount == services.maxOsContextCount(configured, numRootDevices)
        invariant env.memoryManagerInitialized == old(env.memoryManagerInitialized)
        invariant env.memoryManagerSaw == old(env.memoryManagerSaw)
        invariant forall i :: 0 <= i < numRootDevices ==>
          env.rootDeviceEnvironments[i] ==
            if i < rootDeviceIndex then OverrideEnvironment(services, flags, configured) else EmptyRootDeviceEnvironment
      {
        var center := AubCenter(localMemoryEnabled, "", csrType);
        var environment := env.rootDeviceEnvironments[rootDeviceIndex].(aubCenter := Some(center));
        environment := environment.(memoryOperations := AubMemoryOperations(environment.aubCenter.value));
        env.rootDeviceEnvironments := env.rootDeviceEnvironments[rootDeviceIndex := environment];
        rootDeviceIndex := rootDeviceIndex + 1;
      }
    }

    if flags.overrideGpuAddressSpace != -1 {
      env.hardwareInfo := env.hardwareInfo.(gpuAddressSpace := MaxNBitValue(AsUint64(flags.overrideGpuAddressSpace)));
    }

    env.InitializeMemoryManager();
    ok := true;
    if CustomConfigKeepsCompression(services) {
      OverrideDisablesCompression(services, hwInfoConst, hwInfoConfig, flags);
    }
  }

  // ----- the real-hardware path -----

  /** The position of the first discovered identifier whose OS interface cannot be
      bound, or the number of identifiers if all bind. */
  function FirstUnbound(ids: seq<HwDeviceId>, bind: HwDeviceId -> bool): (j: nat)
    ensures j <= |ids|
    ensures forall k :: 0 <= k < j ==> bind(ids[k])
    ensures j < |ids| ==> !bind(ids[j])
  {
    if ids == [] || !bind(ids[0]) then 0 else 1 + FirstUnbound(ids[1..], bind)
  }

  predicate GetDevicesSucceeds(os: OsDiscovery)
  {
    |os.discovered| > 0 && FirstUnbound(os.discovered, os.initOsInterface) == |os.discovered|
  }

  /** A root-device environment whose OS interface is bound to one hardware
      identifier, with no AUB objects. */
  function BoundEnvironment(id: HwDeviceId): (e: RootDeviceEnvironment)
    ensures e.OsBound() && e.osInterface.value == id
    ensures !e.HasAubCenter() && !e.HasAubMemoryOperations()
  {
    EmptyRootDeviceEnvironment.(osInterface := Some(id))
  }

  method GetDevices(env: ExecutionEnvironment, flags: DebugFlags, os: OsDiscovery, services: HwInfoServices)
    returns (ok: bool, totalNumRootDevices: nat)
    modifies env
    ensures totalNumRootDevices == |os.discovered|
    ensures ok == GetDevicesSucceeds(os)
    ensures |os.discovered| == 0 ==> env.rootDeviceEnvironments == old(env.rootDeviceEnvironments)
    ensures |os.discovered| > 0 ==>
      var bound := FirstUnbound(os.discovered, os.initOsInterface);
      && |env.rootDeviceEnvironments| == |os.discovered|
      && forall i :: 0 <= i < |os.discovered| ==>
           env.rootDeviceEnvironments[i] ==
             if i < bound then BoundEnvironment(os.discovered[i]) else EmptyRootDeviceEnvironment
    ensures !ok ==>
      && env.hardwareInfo == old(env.hardwareInfo)
      && env.maxOsContextCount == old(env.maxOsContextCount)
      && env.memoryManagerInitialized == old(env.memoryManagerInitialized)
      && env.memoryManagerSaw == old(env.memoryManagerSaw)
    ensures ok ==>
      && env.hardwareInfo == WithAddressSpaceOverride(old(env.hardwareInfo), flags)
      && env.maxOsContextCount == services.maxOsContextCount(old(env.hardwareInfo), |os.discovered|)
      && env.InitializedWithCurrentState()
  {
    var hwDeviceIds := os.discovered;
    totalNumRootDevices := |hwDeviceIds|;
    if totalNumRootDevices == 0 {
      return false, totalNumRootDevices;
    }

    env.PrepareRootDeviceEnvironments(totalNumRootDevices);

    var rootDeviceIndex := 0;
    while rootDeviceIndex < |hwDeviceIds|
      invariant 0 <= rootDeviceIndex <= |hwDeviceIds|
      invariant |env.rootDeviceEnvironments| == |hwDeviceIds|
      invariant forall k :: 0 <= k < rootDeviceIndex ==> os.initOsInterface(hwDeviceIds[k])
      invariant forall i :: 0 <= i < |hwDeviceIds| ==>
        env.rootDeviceEnvironments[i] ==
          if i < rootDeviceIndex then BoundEnvironment(hwDeviceIds[i]) else EmptyRootDeviceEnvironment
      invariant env.hardwareInfo == old(env.hardwareInfo)
      invariant env.maxOsContextCount == old(env.maxOsContextCount)
      invariant env.memoryManagerInitialized == old(env.memoryManagerInitialized)
      invariant env.memoryManagerSaw == old(env.memoryManagerSaw)
    {
      var hwDeviceId := hwDeviceIds[rootDeviceIndex];
      if !os.initOsInterface(hwDeviceId) {
        return false, totalNumRootDevices;
      }
      env.rootDeviceEnvironments := env.rootDeviceEnvironments[rootDeviceIndex :=
        env.rootDeviceEnvironments[rootDeviceIndex].(osInterface := Some(hwDeviceId))];
      rootDeviceIndex := rootDeviceIndex + 1;
    }

    env.CalculateMaxOsContextCount(services);

    if flags.overrideGpuAddressSpace != -1 {
      env.hardwareInfo := env.hardwareInfo.(gpuAddressSpace := MaxNBitValue(AsUint64(flags.overrideGpuAddressSpace)));
    }

    env.InitializeMemoryManager();
    ok := true;
  }

  // ----- createDevices -----

  predicate DiscoverySucceeds(flags: DebugFlags, os: OsDiscovery, services: HwInfoServices)
  {
    if IsHwModeSelected(flags) then GetDevicesSucceeds(os) else OverrideSucceeds(services, flags)
  }

  /** The number of root-device environments discovery prepares: one per discovered
      identifier on real hardware, RootDeviceCount simulated ones otherwise. */
  function EnvironmentCount(flags: DebugFlags, os: OsDiscovery): (n: nat)
    ensures IsHwModeSelected(flags) ==> n == |os.discovered|
    ensures !IsHwModeSelected(flags) ==> n == RootDeviceCount(flags) && n >= 1
  {
    if IsHwModeSelected(flags) then |os.discovered| else RootDeviceCount(flags)
  }

  /** The execution-environment state discovery leaves, relative to the state before
      it: the memory manager initialised last on success and untouched on failure,
      and the environments, description and budget of the path the receiver type
      selects. */
  twostate predicate DiscoveryEffect(env: ExecutionEnvironment, flags: DebugFlags, os: OsDiscovery, services: HwInfoServices)
    reads env
  {
    var ok := DiscoverySucceeds(flags, os, services);
    && (ok ==> env.InitializedWithCurrentState() && |env.rootDeviceEnvironments| == EnvironmentCount(flags, os))
    && (!ok ==>
          && env.memoryManagerInitialized == old(env.memoryManagerInitialized)
          && env.memoryManagerSaw == old(env.memoryManagerSaw)
          && env.maxOsContextCount == old(env.maxOsContextCount))
    && (IsHwModeSelected(flags) ==>
          && (|os.discovered| == 0 ==> env.rootDeviceEnvironments == old(env.rootDeviceEnvironments))
          && (|os.discovered| > 0 ==>
                var bound := FirstUnbound(os.discovered, os.initOsInterface);
                && |env.rootDeviceEnvironments| == |os.discovered|
                && forall i :: 0 <= i < |os.discovered| ==>
                     env.rootDeviceEnvironments[i] ==
                       if i < bound then BoundEnvironment(os.discovered[i]) else EmptyRootDeviceEnvironment)
          && (ok ==>
                && env.hardwareInfo == WithAddressSpaceOverride(old(env.hardwareInfo), flags)
                && env.maxOsContextCount == services.maxOsContextCount(old(env.hardwareInfo), |os.discovered|))
          && (!ok ==> env.hardwareInfo == old(env.hardwareInfo)))
    && (!IsHwModeSelected(flags) ==>
          var base := BaseHardwareInfo(services, flags);
          && |env.rootDeviceEnvironments| == RootDeviceCount(flags)
          && (!ok ==>
                && env.hardwareInfo == base
                && forall i :: 0 <= i < |env.rootDeviceEnvironments| ==>
                     env.rootDeviceEnvironments[i] == EmptyRootDeviceEnvironment)
          && (ok ==>
                var configured := ConfiguredHardwareInfo(services, base, ResolveConfig(services, base, flags.hardwareInfoOverride).value);
                && env.hardwareInfo == WithAddressSpaceOverride(configured, flags)
                && env.maxOsContextCount == services.maxOsContextCount(configured, RootDeviceCount(flags))
                && forall i :: 0 <= i < |env.rootDeviceEnvironments| ==>
                     env.rootDeviceEnvironments[i] == OverrideEnvironment(services, flags, configured)))
  }

  /** Discovery as createDevices runs it: the real-hardware path when hardware mode
      is selected, the override path otherwise. */
  method Discover(env: ExecutionEnvironment, flags: DebugFlags, os: OsDiscovery, services: HwInfoServices)
    returns (ok: bool, numDevices: nat)
    modifies env
    ensures ok == DiscoverySucceeds(flags, os, services)
    ensures ok ==> numDevices == |env.rootDeviceEnvironments| == EnvironmentCount(flags, os) && numDevices >= 1
    ensures DiscoveryEffect(env, flags, os, services)
  {
    if IsHwModeSelected(flags) {
      ok, numDevices := GetDevices(env, flags, os, services);
    } else {
      ok, numDevices := GetDevicesForProductFamilyOverride(env, flags, services);
    }
  }

  /** The root-device construction hook: the default one builds a RootDevice, a
      replacement is any function of the root-device index. */
  datatype RootDeviceHook =
    | DefaultHook(services: DeviceServices)
    | ReplacedHook(create: nat -> RootDevice?)

  /** Whether the hook yields a device for this root-device index. */
  predicate Produces(hook: RootDeviceHook, hwInfo: HardwareInfo, rootDeviceIndex: nat)
  {
    match hook
    case DefaultHook(services) => CreateDeviceImplSucceeds(services, hwInfo, rootDeviceIndex)
    case ReplacedHook(create) => create(rootDeviceIndex) != null
  }

  /** The indices below n for which the hook yields a device, in the order the
      construction loop visits them. */
  function PresentIndices(hook: RootDeviceHook, hwInfo: HardwareInfo, n: nat): (r: seq<nat>)
    ensures |r| <= n
    ensures forall k :: 0 <= k < |r| ==> r[k] < n && Produces(hook, hwInfo, r[k])
  {
    if n == 0 then []
    else PresentIndices(hook, hwInfo, n - 1) + (if Produces(hook, hwInfo, n - 1) then [n - 1] else [])
  }

  /** The present indices are strictly ascending, and every index below n for which
      the hook yields a device is among them. */
  lemma {:induction false} PresentIndicesAscendingAndComplete(hook: RootDeviceHook, hwInfo: HardwareInfo, n: nat)
    ensures var r := PresentIndices(hook, hwInfo, n);
      && (forall k, l :: 0 <= k < l < |r| ==> r[k] < r[l])
      && (forall i :: 0 <= i < n && Produces(hook, hwInfo, i) ==> i in r)
  {
    if n > 0 {
      PresentIndicesAscendingAndComplete(hook, hwInfo, n - 1);
    }
  }

  /** A replaced hook that returns null for index 2 of three environments yields
      the devices of indices 0 and 1, in that order. */
  lemma NullHookResultIsOmitted(hook: RootDeviceHook, hwInfo: HardwareInfo)
    requires hook.ReplacedHook?
    requires hook.create(0) != null && hook.create(1) != null && hook.create(2) == null
    ensures PresentIndices(hook, hwInfo, 3) == [0, 1]
  {
    assert PresentIndices(hook, hwInfo, 1) == [0];
    assert PresentIndices(hook, hwInfo, 2) == [0, 1];
  }

  /** The default hook: a root device is created and its hierarchy built; if that
      fails the device is destroyed, which releases every sub-device reference it
      took, and null is returned. */
  method DefaultCreateRootDevice(hwInfo: HardwareInfo, rootDeviceIndex: nat, services: DeviceServices)
    returns (device: RootDevice?, ghost attempted: RootDevice)
    ensures fresh(attempted)
    ensures attempted.rootDeviceIndex == rootDeviceIndex && attempted.hardwareInfo == hwInfo
    ensures device != null <==> CreateDeviceImplSucceeds(services, hwInfo, rootDeviceIndex)
    ensures device != null ==> device == attempted && attempted.Built(services)
    ensures device == null ==>
      forall k :: 0 <= k < |attempted.subdevices| && attempted.subdevices[k] != null ==>
        attempted.subdevices[k].internalRefs == 0
  {
    var root := new RootDevice(hwInfo, rootDeviceIndex);
    attempted := root;
    var created := root.CreateDeviceImpl(services);
    if created {
      device := root;
    } else {
      root.Destroy();
      device := null;
    }
  }

  /** One call of the construction hook. */
  method ConstructDevice(hwInfo: HardwareInfo, rootDeviceIndex: nat, hook: RootDeviceHook) returns (device: RootDevice?)
    ensures device != null <==> Produces(hook, hwInfo, rootDeviceIndex)
    ensures hook.ReplacedHook? ==> device == hook.create(rootDeviceIndex)
    ensures hook.DefaultHook? && device != null ==>
      && fresh(device)
      && device.rootDeviceIndex == rootDeviceIndex
      && device.hardwareInfo == hwInfo
      && device.Built(hook.services)
  {
    match hook {
      case DefaultHook(deviceServices) =>
        ghost var attempted;
        device, attempted := DefaultCreateRootDevice(hwInfo, rootDeviceIndex, deviceServices);
      case ReplacedHook(create) =>
        device := create(rootDeviceIndex);
    }
  }

  /** The construction loop of createDevices: the hook runs for every index in
      ascending order and every non-null result is kept, in that order. */
  method ConstructDevices(hwInfo: HardwareInfo, n: nat, hook: RootDeviceHook) returns (devices: seq<RootDevice>)
    ensures var present := PresentIndices(hook, hwInfo, n);
      && |devices| == |present|
      && (hook.ReplacedHook? ==> forall k :: 0 <= k < |devices| ==> devices[k] == hook.create(present[k]))
      && (hook.DefaultHook? ==> forall k :: 0 <= k < |devices| ==>
            && fresh(devices[k])
            && devices[k].rootDeviceIndex == present[k]
            && devices[k].hardwareInfo == hwInfo
            && devices[k].Built(hook.services))
  {
    devices := [];
    ghost var present: seq<nat> := [];
    var rootDeviceIndex := 0;
    while rootDeviceIndex < n
      invariant 0 <= rootDeviceIndex <= n
      invariant present == PresentIndices(hook, hwInfo, rootDeviceIndex)
      invariant |devices| == |present|
      invariant hook.ReplacedHook? ==> forall k :: 0 <= k < |devices| ==> devices[k] == hook.create(present[k])
      invariant hook.DefaultHook? ==> forall k :: 0 <= k < |devices| ==>
        && fresh(devices[k])
        && devices[k].rootDeviceIndex == present[k]
        && devices[k].hardwareInfo == hwInfo
        && devices[k].Built(hook.services)
    {
      var device := ConstructDevice(hwInfo, rootDeviceIndex, hook);
      if device != null {
        devices := devices + [device];
        present := present + [rootDeviceIndex];
      }
      rootDeviceIndex := rootDeviceIndex + 1;
    }
  }

  method CreateDevices(
    env: ExecutionEnvironment, flags: DebugFlags, os: OsDiscovery, services: HwInfoServices, hook: RootDeviceHook)
    returns (devices: seq<RootDevice>)
    modifies env
    ensures DiscoveryEffect(env, flags, os, services)
    ensures !DiscoverySucceeds(flags, os, services) ==> devices == []
    ensures DiscoverySucceeds(flags, os, services) ==>
      var present := PresentIndices(hook, env.hardwareInfo, EnvironmentCount(flags, os));
      && |env.rootDeviceEnvironments| == EnvironmentCount(flags, os)
      && |devices| == |present| <= |env.rootDeviceEnvironments|
      && (hook.ReplacedHook? ==> forall k :: 0 <= k < |devices| ==> devices[k] == hook.create(present[k]))
      && (hook.DefaultHook? ==> forall k :: 0 <= k < |devices| ==>
            && fresh(devices[k])
            && devices[k].rootDeviceIndex == present[k]
            && devices[k].hardwareInfo == env.hardwareInfo
            && devices[k].Built(hook.services))
  {
    devices := [];
    var status, numDevices := Discover(env, flags, os, services);
    if !status {
      return devices;
    }
    devices := ConstructDevices(env.hardwareInfo, |env.rootDeviceEnvironments|, hook);
  }

  /** Three simulated root devices, a configuration that parses and a replaced hook
      that returns null for index 2: createDevices yields the devices of indices 0
      and 1, in order. */
  method CreateDevicesSkipsNullResult(
    env: ExecutionEnvironment, flags: DebugFlags, os: OsDiscovery, services: HwInfoServices, hook: RootDeviceHook)
    returns (devices: seq<RootDevice>)
    requires !IsHwModeSelected(flags) && flags.createMultipleRootDevices == 3 && OverrideSucceeds(services, flags)
    requires hook.ReplacedHook? && hook.create(0) != null && hook.create(1) != null && hook.create(2) == null
    modifies env
    ensures devices == [hook.create(0), hook.create(1)]
    ensures |env.rootDeviceEnvironments| == 3
  {
    devices := CreateDevices(env, flags, os, services, hook);
    NullHookResultIsOmitted(hook, env.hardwareInfo);
  }
}
