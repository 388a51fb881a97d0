/** A root device: one physical accelerator, the sequence of sub-devices (tiles) it
    owns one internal reference of each, and its own engines, of which it has one
    only when it brings up the aggregate root-level command-stream receiver. */
module RootDevices {
  import opened Optional
  import opened Bits
  import opened Environment
  import opened Engines

  /** The collaborators a root device calls. */
  datatype DeviceServices = DeviceServices(
    // HwHelper::getSubDevicesCount
    subDevicesCount: HardwareInfo -> nat,
    // whether Device::create<SubDevice>(subDeviceIndex) succeeds, by root and sub-device index
    subDeviceCreates: (nat, nat) -> bool,
    // the outcome of the base Device::createDeviceImpl, by root-device index
    baseCreateDeviceImpl: nat -> bool,
    // the outcome of the base Device::createEngines, by root-device index
    baseCreateEngines: nat -> bool,
    // getChosenEngineType
    chosenEngineType: HardwareInfo -> EngineType,
    // PreemptionHelper::getDefaultPreemptionMode
    defaultPreemptionMode: HardwareInfo -> PreemptionMode)

  /** The number of sub-devices createDeviceImpl builds: hardware with a single
      sub-unit gets no sub-device layer. */
  function SubDeviceCount(services: DeviceServices, hwInfo: HardwareInfo): (n: nat)
    ensures services.subDevicesCount(hwInfo) == 1 ==> n == 0
    ensures services.subDevicesCount(hwInfo) != 1 ==> n == services.subDevicesCount(hwInfo)
    ensures n != 1
  {
    var n := services.subDevicesCount(hwInfo);
    if n == 1 then 0 else n
  }

  /** The first sub-device index in [from, n) whose creation fails, or n if none does. */
  function FirstFailedSubDevice(services: DeviceServices, rootDeviceIndex: nat, from: nat, n: nat): (j: nat)
    requires from <= n
    ensures from <= j <= n
    ensures forall i :: from <= i < j ==> services.subDeviceCreates(rootDeviceIndex, i)
    ensures j < n ==> !services.subDeviceCreates(rootDeviceIndex, j)
    decreases n - from
  {
    if from == n || !services.subDeviceCreates(rootDeviceIndex, from) then from
    else FirstFailedSubDevice(services, rootDeviceIndex, from + 1, n)
  }

  /** Whether createDeviceImpl reports success: every sub-device was created and the
      base construction step succeeded. */
  predicate CreateDeviceImplSucceeds(services: DeviceServices, hwInfo: HardwareInfo, rootDeviceIndex: nat)
  {
    var n := SubDeviceCount(services, hwInfo);
    FirstFailedSubDevice(services, rootDeviceIndex, 0, n) == n && services.baseCreateDeviceImpl(rootDeviceIndex)
  }

  class SubDevice {
    const subDeviceIndex: nat
    const rootDevice: RootDevice
    var internalRefs: int

    constructor (subDeviceIndex: nat, rootDevice: RootDevice)
      ensures this.subDeviceIndex == subDeviceIndex && this.rootDevice == rootDevice
      ensures internalRefs == 0
    {
      this.subDeviceIndex := subDeviceIndex;
      this.rootDevice := rootDevice;
      internalRefs := 0;
    }

    method IncRefInternal()
      modifies this
      ensures internalRefs == old(internalRefs) + 1
    {
      internalRefs := internalRefs + 1;
    }

    method DecRefInternal()
      modifies this
      ensures internalRefs == old(internalRefs) - 1
    {
      internalRefs := internalRefs - 1;
    }
  }

  /** What getDeviceById returns: the root device itself, or an entry of its
      sub-device sequence (which is null after a failed sub-device creation). */
  datatype DeviceRef = RootRef(root: RootDevice) | SubRef(sub: SubDevice?)

  class RootDevice {
    const rootDeviceIndex: nat
    const hardwareInfo: HardwareInfo
    var subdevices: seq<SubDevice?>
    var engines: seq<EngineControl>
    var commandStreamReceivers: seq<CommandStreamReceiver>

    /** The non-null entries of subdevices are pairwise distinct objects. */
    ghost predicate Valid()
      reads this
    {
      forall a, b :: 0 <= a < b < |subdevices| && subdevices[a] != null ==> subdevices[a] != subdevices[b]
    }

    /** Fully built: sub-device count as the hardware reports it, every entry present,
        holding exactly the root's one internal reference, and at its own index. */
    ghost predicate Built(services: DeviceServices)
      reads this, subdevices
    {
      && Valid()
      && |subdevices| == SubDeviceCount(services, hardwareInfo)
      && forall k :: 0 <= k < |subdevices| ==>
           subdevices[k] != null && subdevices[k].internalRefs == 1 && subdevices[k].subDeviceIndex == k
    }

    constructor (hardwareInfo: HardwareInfo, rootDeviceIndex: nat)
      ensures this.hardwareInfo == hardwareInfo && this.rootDeviceIndex == rootDeviceIndex
      ensures subdevices == [] && engines == [] && commandStreamReceivers == []
      ensures Valid()
    {
      this.hardwareInfo := hardwareInfo;
      this.rootDeviceIndex := rootDeviceIndex;
      subdevices := [];
      engines := [];
      commandStreamReceivers := [];
    }

    /** The size of the sub-device sequence: 0 exactly when the root has no
        sub-devices, and never 1 once the device is built. */
    function NumSubDevices(): (n: nat)
      reads this
      ensures n == |subdevices|
      ensures n == 0 <==> subdevices == []
    {
      |subdevices|
    }

    /** The number of addressable units: the root itself when it has no sub-devices,
        otherwise its sub-devices. */
    function NumAvailableDevices(): (n: nat)
      reads this
      ensures n >= 1
      ensures subdevices == [] ==> n == 1
      ensures subdevices != [] ==> n == NumSubDevices()
    {
      if subdevices == [] then 1 else NumSubDevices()
    }

    /** Addressing a unit of this device; an id out of range is a fatal error. */
    function GetDeviceById(deviceId: nat): (d: DeviceRef)
      reads this
      requires deviceId < NumAvailableDevices()
      ensures subdevices == [] ==> deviceId == 0 && d == RootRef(this)
      ensures subdevices != [] ==> d == SubRef(subdevices[deviceId])
    {
      if subdevices == [] then RootRef(this) else SubRef(subdevices[deviceId])
    }

    /** A root device is never released on its own. */
    function IsReleasable(): (r: bool)
      ensures !r
    {
      false
    }

    /** The bitfield of addressable units: for every one of its 32 bit positions, the
        bit is set exactly when that unit exists. */
    function DeviceBitfield(): (b: nat)
      reads this
      ensures b < Two32
      ensures b == MaxNBitValue(Min(NumAvailableDevices(), 32))
      ensures NumAvailableDevices() <= 32 ==> b == MaxNBitValue(NumAvailableDevices())
      ensures forall i :: 0 <= i < 32 ==> (Bit(b, i) <==> i < NumAvailableDevices())
    {
      TruncatedMaxNBitValue(NumAvailableDevices());
      TruncatedMaskBits(NumAvailableDevices());
      Truncate32(MaxNBitValue(NumAvailableDevices()))
    }

    /** Device::create<SubDevice>: a fresh sub-device, or null when creation fails. */
    method CreateSubDevice(subDeviceIndex: nat, services: DeviceServices) returns (sub: SubDevice?)
      ensures sub != null <==> services.subDeviceCreates(rootDeviceIndex, subDeviceIndex)
      ensures sub != null ==> fresh(sub) && sub.subDeviceIndex == subDeviceIndex && sub.rootDevice == this
      ensures sub != null ==> sub.internalRefs == 0
    {
      if services.subDeviceCreates(rootDeviceIndex, subDeviceIndex) {
        sub := new SubDevice(subDeviceIndex, this);
      } else {
        sub := null;
      }
    }

    /** Builds the sub-device sequence, stopping at the first sub-device that cannot
        be created, then runs the base construction step. */
    method CreateDeviceImpl(services: DeviceServices) returns (ok: bool)
      requires subdevices == []
      modifies this
      ensures Valid()
      ensures |subdevices| == SubDeviceCount(services, hardwareInfo)
      ensures var j := FirstFailedSubDevice(services, rootDeviceIndex, 0, |subdevices|);
        forall k :: 0 <= k < |subdevices| ==> (subdevices[k] != null <==> k < j)
      ensures forall k :: 0 <= k < |subdevices| && subdevices[k] != null ==>
        && fresh(subdevices[k])
        && subdevices[k].internalRefs == 1
        && subdevices[k].subDeviceIndex == k
        && subdevices[k].rootDevice == this
      ensures ok == CreateDeviceImplSucceeds(services, hardwareInfo, rootDeviceIndex)
      ensures ok ==> Built(services)
    {
      var n := SubDeviceCount(services, hardwareInfo);
      subdevices := seq(n, _ => null);
      var i := 0;
      while i < n
        invariant 0 <= i <= n
        invariant |subdevices| == n
        invariant forall k :: 0 <= k < i ==> services.subDeviceCreates(rootDeviceIndex, k)
        invariant forall k :: i <= k < n ==> subdevices[k] == null
        invariant forall k :: 0 <= k < i ==>
          && subdevices[k] != null
          && fresh(subdevices[k])
          && subdevices[k].internalRefs == 1
          && subdevices[k].subDeviceIndex == k
          && subdevices[k].rootDevice == this
        invariant Valid()
      {
        var sub := CreateSubDevice(i, services);
        if sub == null {
          return false;
        }
        sub.IncRefInternal();
        subdevices := subdevices[i := sub];
        i := i + 1;
      }
      ok := services.baseCreateDeviceImpl(rootDeviceIndex);
    }

    /** The destructor: releases the internal reference of every sub-device that was
        created, and skips the entries creation never filled. */
    method Destroy()
      requires Valid()
      modifies subdevices
      ensures forall k :: 0 <= k < |subdevices| && subdevices[k] != null ==>
        subdevices[k].internalRefs == old(subdevices[k].internalRefs) - 1
    {
      var i := 0;
      while i < |subdevices|
        invariant 0 <= i <= |subdevices|
        invariant forall k :: 0 <= k < i && subdevices[k] != null ==>
          subdevices[k].internalRefs == old(subdevices[k].internalRefs) - 1
        invariant forall k :: i <= k < |subdevices| && subdevices[k] != null ==>
          subdevices[k].internalRefs == old(subdevices[k].internalRefs)
      {
        var sub := subdevices[i];
        if sub != null {
          sub.DecRefInternal();
        }
        i := i + 1;
      }
    }

    /** Aggregate root-level bring-up: one receiver for this root-device index, one
        OS context over the whole device bitfield, registered once, appended as a
        new engine. */
    method InitializeRootCommandStreamReceiver(memoryManager: MemoryManager, services: DeviceServices)
      modifies this, memoryManager
      ensures subdevices == old(subdevices)
      ensures |engines| == |old(engines)| + 1 && engines[..|old(engines)|] == old(engines)
      ensures var engine := engines[|engines| - 1];
        && commandStreamReceivers == old(commandStreamReceivers) + [engine.commandStreamReceiver]
        && memoryManager.registeredEngines == old(memoryManager.registeredEngines) + [engine]
        && fresh(engine.commandStreamReceiver)
        && engine.commandStreamReceiver.rootDeviceIndex == rootDeviceIndex
        && engine.osContext == OsContext(
             |old(memoryManager.registeredEngines)|, services.chosenEngineType(hardwareInfo),
             DeviceBitfield(), services.defaultPreemptionMode(hardwareInfo), false)
        && engine.commandStreamReceiver.osContext == Some(engine.osContext)
        && engine.commandStreamReceiver.tagAllocationInitialized
        && engine.commandStreamReceiver.globalFenceAllocated
    {
      var receiver := new CommandStreamReceiver(rootDeviceIndex);
      var defaultEngineType := services.chosenEngineType(hardwareInfo);
      var preemptionMode := services.defaultPreemptionMode(hardwareInfo);
      var osContext := memoryManager.CreateAndRegisterOsContext(
        receiver, defaultEngineType, DeviceBitfield(), preemptionMode, false);
      receiver.SetupContext(osContext);
      receiver.InitializeTagAllocation();
      receiver.CreateGlobalFenceAllocation();
      commandStreamReceivers := commandStreamReceivers + [receiver];
      engines := engines + [EngineControl(receiver, osContext)];
    }

    /** Fewer than two sub-devices: the base per-device engine creation runs. Two or
        more: one aggregate root engine is brought up and the call succeeds. */
    method CreateEngines(memoryManager: MemoryManager, services: DeviceServices) returns (ok: bool)
      modifies this, memoryManager
      ensures subdevices == old(subdevices)
      ensures |subdevices| < 2 ==> ok == services.baseCreateEngines(rootDeviceIndex)
      ensures |subdevices| >= 2 ==> ok
      ensures |subdevices| >= 2 ==>
        && |engines| == |old(engines)| + 1 && engines[..|old(engines)|] == old(engines)
        && var engine := engines[|engines| - 1];
        && commandStreamReceivers == old(commandStreamReceivers) + [engine.commandStreamReceiver]
        && memoryManager.registeredEngines == old(memoryManager.registeredEngines) + [engine]
        && fresh(engine.commandStreamReceiver)
        && engine.commandStreamReceiver.rootDeviceIndex == rootDeviceIndex
        && engine.osContext == OsContext(
             |old(memoryManager.registeredEngines)|, services.chosenEngineType(hardwareInfo),
             DeviceBitfield(), services.defaultPreemptionMode(hardwareInfo), false)
        && engine.commandStreamReceiver.osContext == Some(engine.osContext)
        && engine.commandStreamReceiver.tagAllocationInitialized
        && engine.commandStreamReceiver.globalFenceAllocated
    {
      if NumSubDevices() < 2 {
        ok := services.baseCreateEngines(rootDeviceIndex);
      } else {
        InitializeRootCommandStreamReceiver(memoryManager, services);
        ok := true;
      }
    }
  }

  /** A built root device never has exactly one sub-device: it has none, or as many
      as the hardware reports. */
  lemma BuiltDeviceSubDeviceCount(device: RootDevice, services: DeviceServices)
    requires device.Built(services)
    ensures device.NumSubDevices() != 1
    ensures services.subDevicesCount(device.hardwareInfo) <= 1 ==> device.NumSubDevices() == 0
    ensures services.subDevicesCount(device.hardwareInfo) >= 2 ==>
      device.NumSubDevices() == services.subDevicesCount(device.hardwareInfo)
  {
  }

  /** getDeviceById and getDeviceBitfield agree: a unit id below 32 is addressable
      exactly when its bit is set. */
  lemma AddressableIffBitSet(device: RootDevice, deviceId: nat)
    requires deviceId < 32
    ensures deviceId < device.NumAvailableDevices() <==> Bit(device.DeviceBitfield(), deviceId)
  {
  }

  /** On a fully built device with sub-devices, getDeviceById maps the ids in range
      one-to-one onto its sub-devices. */
  lemma GetDeviceByIdOnBuiltDevice(device: RootDevice, services: DeviceServices, a: nat, b: nat)
    requires device.Built(services) && device.subdevices != []
    requires a < device.NumAvailableDevices() && b < device.NumAvailableDevices()
    ensures device.GetDeviceById(a).SubRef? && device.GetDeviceById(a).sub != null
    ensures device.GetDeviceById(a).sub.subDeviceIndex == a
    ensures a != b ==> device.GetDeviceById(a) != device.GetDeviceById(b)
  {
  }
}
