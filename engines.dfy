/** Engines: (command-stream receiver, OS context) pairs, and the memory manager's
    registry of OS contexts. The receiver's own setup routines are collaborators;
    the model records only that each was run. */
module Engines {
  import opened Optional

  type EngineType = nat
  type PreemptionMode = nat

  /** A registered OS context: its id is its position in the memory manager's
      registry, and it carries the arguments it was created with. */
  datatype OsContext = OsContext(
    contextId: nat,
    engineType: EngineType,
    deviceBitfield: nat,
    preemptionMode: PreemptionMode,
    lowPriority: bool)

  class CommandStreamReceiver {
    const rootDeviceIndex: nat
    var osContext: Option<OsContext>
    var tagAllocationInitialized: bool
    var globalFenceAllocated: bool

    /** createCommandStream(executionEnvironment, rootDeviceIndex) */
    constructor (rootDeviceIndex: nat)
      ensures this.rootDeviceIndex == rootDeviceIndex
      ensures osContext == None && !tagAllocationInitialized && !globalFenceAllocated
    {
      this.rootDeviceIndex := rootDeviceIndex;
      osContext := None;
      tagAllocationInitialized := false;
      globalFenceAllocated := false;
    }

    method SetupContext(context: OsContext)
      modifies this
      ensures osContext == Some(context)
      ensures tagAllocationInitialized == old(tagAllocationInitialized)
      ensures globalFenceAllocated == old(globalFenceAllocated)
    {
      osContext := Some(context);
    }

    method InitializeTagAllocation()
      modifies this
      ensures tagAllocationInitialized
      ensures osContext == old(osContext) && globalFenceAllocated == old(globalFenceAllocated)
    {
      tagAllocationInitialized := true;
    }

    method CreateGlobalFenceAllocation()
      modifies this
      ensures globalFenceAllocated
      ensures osContext == old(osContext) && tagAllocationInitialized == old(tagAllocationInitialized)
    {
      globalFenceAllocated := true;
    }
  }

  datatype EngineControl = EngineControl(commandStreamReceiver: CommandStreamReceiver, osContext: OsContext)

  class MemoryManager {
    var registeredEngines: seq<EngineControl>

    constructor ()
      ensures registeredEngines == []
    {
      registeredEngines := [];
    }

    /** Creates an OS context for the receiver and registers the pair, once. */
    method CreateAndRegisterOsContext(
      receiver: CommandStreamReceiver, engineType: EngineType, deviceBitfield: nat,
      preemptionMode: PreemptionMode, lowPriority: bool)
      returns (context: OsContext)
      modifies this
      ensures context == OsContext(|old(registeredEngines)|, engineType, deviceBitfield, preemptionMode, lowPriority)
      ensures registeredEngines == old(registeredEngines) + [EngineControl(receiver, context)]
    {
      context := OsContext(|registeredEngines|, engineType, deviceBitfield, preemptionMode, lowPriority);
      registeredEngines := registeredEngines + [EngineControl(receiver, context)];
    }
  }
}
