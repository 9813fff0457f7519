/** The mesh-network driver, as far as the driver command handler uses it.
    The driver is foreign: what an operation does to the driver's state, and
    what an awaited operation answers, are left open. The model records
    which operations were invoked, in order, with the answers they gave. */
module ZwaveDriver {
  import opened Wrappers
  import opened Messages

  /** One invocation of a driver operation; awaited operations carry the
      answer the driver gave. */
  datatype DriverCall =
    | DisableStatistics
    | EnableStatistics(applicationName: string, applicationVersion: string)
    | UpdateLogConfig(config: Json)
    | CheckForConfigUpdates(newVersion: Option<string>)
    | InstallConfigUpdate(success: bool)
    | SetPreferredScales(scales: Json)
    | SoftReset
    | TrySoftReset
    | Shutdown(success: bool)
    | UpdateOptions(options: Json)
    | SendTestFrame(nodeId: int, powerlevel: int, status: Option<int>)

  /** What the state dumpers can see of the driver. */
  datatype DriverState = DriverState(statisticsEnabled: bool, configVersion: string, internals: Json)

  class Driver {
    var statisticsEnabled: bool
    /** The version of the installed device-configuration database. */
    var configVersion: string
    /** Everything else the driver holds (log configuration, options, network). */
    var internals: Json
    /** The operations invoked so far, oldest first. */
    var calls: seq<DriverCall>

    constructor (statisticsEnabled: bool, configVersion: string, internals: Json)
      ensures State() == DriverState(statisticsEnabled, configVersion, internals) && calls == []
    {
      this.statisticsEnabled := statisticsEnabled;
      this.configVersion := configVersion;
      this.internals := internals;
      calls := [];
    }

    function State(): DriverState
      reads this
    {
      DriverState(statisticsEnabled, configVersion, internals)
    }

    /** Invokes an operation: it is logged, and may change any of the driver's state. */
    method Perform(call: DriverCall)
      modifies this
      ensures calls == old(calls) + [call]
    {
      calls := calls + [call];
      statisticsEnabled := *;
      configVersion := *;
      internals := *;
    }

    /** Looks for a newer configuration database; answers its version, if there is one. */
    method CheckForConfigUpdates() returns (newVersion: Option<string>)
      modifies this
      ensures calls == old(calls) + [DriverCall.CheckForConfigUpdates(newVersion)]
    {
      newVersion := *;
      Perform(DriverCall.CheckForConfigUpdates(newVersion));
    }

    /** Installs the newer configuration database; answers whether it did. */
    method InstallConfigUpdate() returns (success: bool)
      modifies this
      ensures calls == old(calls) + [DriverCall.InstallConfigUpdate(success)]
    {
      success := *;
      Perform(DriverCall.InstallConfigUpdate(success));
    }

    /** Shuts the driver down; answers whether it did. */
    method Shutdown() returns (success: bool)
      modifies this
      ensures calls == old(calls) + [DriverCall.Shutdown(success)]
    {
      success := *;
      Perform(DriverCall.Shutdown(success));
    }

    /** Sends a test frame to `nodeId` at `powerlevel`; answers the transmission status. */
    method SendTestFrame(nodeId: int, powerlevel: int) returns (status: Option<int>)
      modifies this
      ensures calls == old(calls) + [DriverCall.SendTestFrame(nodeId, powerlevel, status)]
    {
      status := *;
      Perform(DriverCall.SendTestFrame(nodeId, powerlevel, status));
    }
  }
}
