/** The handler of driver-domain commands: each command reads or drives the
    mesh-network driver, and some of them touch the client registry. */
module DriverHandler {
  import opened Wrappers
  import opened Messages
  import opened Server
  import opened ZwaveDriver

  /** The state dumpers the handler uses; each renders the driver's state
      for one schema version. */
  datatype DriverDumpers = DriverDumpers(
    dumpDriver: (DriverState, int) -> Json,
    dumpLogConfig: (DriverState, int) -> Json)

  /** A decoded driver command: one constructor per entry of the handler's
      table, and `Unrecognized` for any other command tag. */
  datatype DriverMessage =
    | GetConfig
    | DisableStatistics
    | EnableStatistics(applicationName: string, applicationVersion: string)
    | GetLogConfig
    | UpdateLogConfig(config: Json)
    | IsStatisticsEnabled
    | StartListeningLogs(filter: Option<Json>)
    | StopListeningLogs
    | CheckForConfigUpdates
    | InstallConfigUpdate
    | SetPreferredScales(scales: Json)
    | EnableErrorReporting
    | SoftReset
    | TrySoftReset
    | HardReset
    | Shutdown
    | UpdateOptions(options: Json)
    | SendTestFrame(nodeId: int, powerlevel: int)
    | Unrecognized(command: string)

  /** The response payloads of the handler; `Empty` is `{}`. */
  datatype DriverResult =
    | Empty
    | Config(config: Json)
    | StatisticsEnabled(statisticsEnabled: bool)
    | ConfigUpdates(installedVersion: string, updateAvailable: bool, newVersion: Option<string>)
    | Success(success: bool)
    | Status(status: Option<int>)

  /** The event every client receives once the log configuration changed. */
  function LogConfigUpdatedEvent(config: Json): OutgoingEvent {
    OutgoingEvent("driver", "log config updated", map["config" := config])
  }

  /** An action deferred with a timer, to run once the current reply went out. */
  datatype TimerTask = HardResetController

  /** The timer tasks waiting to run, oldest first. */
  class TimerQueue {
    var pending: seq<TimerTask>

    constructor ()
      ensures pending == []
    {
      pending := [];
    }

    method Schedule(task: TimerTask)
      modifies this`pending
      ensures pending == old(pending) + [task]
    {
      pending := pending + [task];
    }

    /** Runs every waiting task, oldest first: each one hard-resets the controller. */
    method RunPending(remoteController: RemoteController)
      modifies this`pending, remoteController`hardResets
      ensures pending == []
      ensures remoteController.hardResets == old(remoteController.hardResets) + |old(pending)|
    {
      var i := 0;
      while i < |pending|
        invariant 0 <= i <= |pending| && pending == old(pending)
        invariant remoteController.hardResets == old(remoteController.hardResets) + i
      {
        match pending[i]
        case HardResetController => remoteController.HardResetController();
        i := i + 1;
      }
      pending := [];
    }
  }

  /** The handler, for the commands of one client. */
  class DriverMessageHandler {
    const remoteController: RemoteController
    const clientsController: ClientsController
    const driver: Driver
    /** The client whose command is handled. */
    const client: Client
    const timers: TimerQueue
    const dumps: DriverDumpers

    constructor (remoteController: RemoteController, clientsController: ClientsController, driver: Driver,
                 client: Client, timers: TimerQueue, dumps: DriverDumpers)
      ensures this.remoteController == remoteController && this.clientsController == clientsController
      ensures this.driver == driver && this.client == client && this.timers == timers && this.dumps == dumps
    {
      this.remoteController := remoteController;
      this.clientsController := clientsController;
      this.driver := driver;
      this.client := client;
      this.timers := timers;
      this.dumps := dumps;
    }

    /** The driver was not touched. */
    twostate predicate DriverKept()
      reads this, driver
    {
      unchanged(driver)
    }

    /** The client list was kept and no client received an event. */
    twostate predicate NoEventSent()
      reads this, clientsController, clientsController.clients
    {
      && clientsController.clients == old(clientsController.clients)
      && forall c :: c in clientsController.clients ==> c.outbox == old(c.outbox)
    }

    /** Neither the client's log subscription nor the logging forwarder was touched. */
    twostate predicate LoggingKept()
      reads this, client, clientsController
    {
      && client.receiveLogs == old(client.receiveLogs)
      && clientsController.loggingForwarderCalls == old(clientsController.loggingForwarderCalls)
    }

    /** No timer task was queued. */
    twostate predicate NothingScheduled()
      reads this, timers
    {
      timers.pending == old(timers.pending)
    }

    /** The command had no effect besides its reply. */
    twostate predicate OnlyReplied()
      reads this, driver, client, clientsController, clientsController.clients, timers
    {
      DriverKept() && NoEventSent() && LoggingKept() && NothingScheduled()
    }

    /** The command's one effect was the driver operation `call`. */
    twostate predicate OnlyDriverCalled(call: DriverCall)
      reads this, driver, client, clientsController, clientsController.clients, timers
    {
      driver.calls == old(driver.calls) + [call] && NoEventSent() && LoggingKept() && NothingScheduled()
    }

    /** Every registered client received the log configuration, dumped at the
        client's own schema version, once. */
    twostate predicate LogConfigSentToAll()
      reads this, driver, clientsController, clientsController.clients
    {
      && clientsController.clients == old(clientsController.clients)
      && forall c :: c in clientsController.clients ==>
        c.outbox == old(c.outbox) + [LogConfigUpdatedEvent(dumps.dumpLogConfig(driver.State(), c.schemaVersion))]
    }

    /** Sends the current log configuration to every registered client,
        whether or not it receives events. */
    method SendLogConfigToAll()
      requires clientsController.Valid()
      modifies clientsController.clients`outbox
      ensures LogConfigSentToAll()
    {
      var clients := clientsController.clients;
      var i := 0;
      while i < |clients|
        invariant 0 <= i <= |clients|
        invariant forall k :: 0 <= k < i ==>
          clients[k].outbox == old(clients[k].outbox) + [LogConfigUpdatedEvent(dumps.dumpLogConfig(driver.State(), clients[k].schemaVersion))]
        invariant forall k :: i <= k < |clients| ==> clients[k].outbox == old(clients[k].outbox)
      {
        clients[i].SendEvent(LogConfigUpdatedEvent(dumps.dumpLogConfig(driver.State(), clients[i].schemaVersion)));
        i := i + 1;
      }
    }

    /** What handling `message` did, command by command: its reply `r` and
        every change it made. */
    twostate predicate HandledAs(message: DriverMessage, new r: Result<DriverResult, ServerError>)
      reads this, driver, client, clientsController, clientsController.clients, timers, remoteController
    {
      match message
      // state is dumped at the requesting client's schema version
      case GetConfig => r == Ok(Config(dumps.dumpDriver(driver.State(), client.schemaVersion))) && OnlyReplied()
      case GetLogConfig => r == Ok(Config(dumps.dumpLogConfig(driver.State(), client.schemaVersion))) && OnlyReplied()
      case IsStatisticsEnabled => r == Ok(StatisticsEnabled(driver.statisticsEnabled)) && OnlyReplied()
      // commands that only drive the driver
      case DisableStatistics => r == Ok(Empty) && OnlyDriverCalled(DriverCall.DisableStatistics)
      case EnableStatistics(applicationName, applicationVersion) =>
        r == Ok(Empty) && OnlyDriverCalled(DriverCall.EnableStatistics(applicationName, applicationVersion))
      case SetPreferredScales(scales) => r == Ok(Empty) && OnlyDriverCalled(DriverCall.SetPreferredScales(scales))
      case SoftReset => r == Ok(Empty) && OnlyDriverCalled(DriverCall.SoftReset)
      case TrySoftReset => r == Ok(Empty) && OnlyDriverCalled(DriverCall.TrySoftReset)
      case UpdateOptions(options) => r == Ok(Empty) && OnlyDriverCalled(DriverCall.UpdateOptions(options))
      // awaited operations answer what the driver answered
      case CheckForConfigUpdates =>
        && r.Ok? && r.value.ConfigUpdates?
        && r.value.installedVersion == old(driver.configVersion)
        && (r.value.updateAvailable <==> r.value.newVersion.Some?)
        && OnlyDriverCalled(DriverCall.CheckForConfigUpdates(r.value.newVersion))
      case InstallConfigUpdate =>
        r.Ok? && r.value.Success? && OnlyDriverCalled(DriverCall.InstallConfigUpdate(r.value.success))
      case Shutdown =>
        r.Ok? && r.value.Success? && OnlyDriverCalled(DriverCall.Shutdown(r.value.success))
      case SendTestFrame(nodeId, powerlevel) =>
        r.Ok? && r.value.Status? && OnlyDriverCalled(DriverCall.SendTestFrame(nodeId, powerlevel, r.value.status))
      // a new log configuration goes to every registered client
      case UpdateLogConfig(config) =>
        && r == Ok(Empty)
        && driver.calls == old(driver.calls) + [DriverCall.UpdateLogConfig(config)]
        && clientsController.loggingForwarderCalls == old(clientsController.loggingForwarderCalls) + [RestartIfNeeded]
        && client.receiveLogs == old(client.receiveLogs)
        && LogConfigSentToAll() && NothingScheduled()
      // log subscription changes only the requesting client's flag
      case StartListeningLogs(filter) =>
        && r == Ok(Empty)
        && client.receiveLogs
        && clientsController.loggingForwarderCalls == old(clientsController.loggingForwarderCalls) + [Configure(filter)]
        && DriverKept() && NoEventSent() && NothingScheduled()
        && (forall c :: c in clientsController.clients && c != client ==> c.receiveLogs == old(c.receiveLogs))
      case StopListeningLogs =>
        && r == Ok(Empty)
        && !client.receiveLogs
        && clientsController.loggingForwarderCalls == old(clientsController.loggingForwarderCalls) + [Cleanup]
        && DriverKept() && NoEventSent() && NothingScheduled()
        && (forall c :: c in clientsController.clients && c != client ==> c.receiveLogs == old(c.receiveLogs))
      // a removed capability is still accepted, and does nothing
      case EnableErrorReporting => r == Ok(Empty) && OnlyReplied()
      // a hard reset is only queued, to run after the reply
      case HardReset =>
        && r == Ok(Empty)
        && timers.pending == old(timers.pending) + [HardResetController]
        && remoteController.hardResets == old(remoteController.hardResets)
        && DriverKept() && NoEventSent() && LoggingKept()
      // an unknown tag is rejected, carrying the tag, and has no effect
      case Unrecognized(command) => r == Err(UnknownCommand(command)) && OnlyReplied()
    }

    /** Handles one driver command of `client`: the table is split by the
        kind of effect the commands have. */
    method Handle(message: DriverMessage) returns (r: Result<DriverResult, ServerError>)
      requires clientsController.Valid()
      modifies driver, clientsController`loggingForwarderCalls, clientsController.clients`outbox, client`receiveLogs, timers`pending
      ensures r.Err? <==> message.Unrecognized?
      ensures HandledAs(message, r)
    {
      if message.UpdateLogConfig? || message.StartListeningLogs? || message.StopListeningLogs? {
        r := HandleLogging(message);
      } else if message.CheckForConfigUpdates? || message.InstallConfigUpdate? || message.Shutdown? || message.SendTestFrame? {
        r := HandleAwaited(message);
      } else if message.DisableStatistics? || message.EnableStatistics? || message.SetPreferredScales?
             || message.SoftReset? || message.TrySoftReset? || message.UpdateOptions? {
        r := HandleDriverOperation(message);
      } else {
        r := HandleOther(message);
      }
    }

    /** The commands that change log subscriptions or the log configuration. */
    method HandleLogging(message: DriverMessage) returns (r: Result<DriverResult, ServerError>)
      requires message.UpdateLogConfig? || message.StartListeningLogs? || message.StopListeningLogs?
      requires clientsController.Valid()
      modifies driver, clientsController`loggingForwarderCalls, clientsController.clients`outbox, client`receiveLogs, timers`pending
      ensures HandledAs(message, r)
    {
      match message
      case UpdateLogConfig(config) =>
        driver.Perform(DriverCall.UpdateLogConfig(config));
        clientsController.RestartLoggingEventForwarderIfNeeded();
        SendLogConfigToAll();
        r := Ok(Empty);
      case StartListeningLogs(filter) =>
        client.receiveLogs := true;
        clientsController.ConfigureLoggingEventForwarder(filter);
        r := Ok(Empty);
      case StopListeningLogs =>
        client.receiveLogs := false;
        clientsController.CleanupLoggingEventForwarder();
        r := Ok(Empty);
    }

    /** The commands that await an answer of the driver. */
    method HandleAwaited(message: DriverMessage) returns (r: Result<DriverResult, ServerError>)
      requires message.CheckForConfigUpdates? || message.InstallConfigUpdate? || message.Shutdown? || message.SendTestFrame?
      requires clientsController.Valid()
      modifies driver, clientsController`loggingForwarderCalls, clientsController.clients`outbox, client`receiveLogs, timers`pending
      ensures HandledAs(message, r)
    {
      match message
      case CheckForConfigUpdates =>
        var installedVersion := driver.configVersion;
        var newVersion := driver.CheckForConfigUpdates();
        var updateAvailable := newVersion.Some?;
        r := Ok(ConfigUpdates(installedVersion, updateAvailable, newVersion));
      case InstallConfigUpdate =>
        var success := driver.InstallConfigUpdate();
        r := Ok(Success(success));
      case Shutdown =>
        var success := driver.Shutdown();
        r := Ok(Success(success));
      case SendTestFrame(nodeId, powerlevel) =>
        var status := driver.SendTestFrame(nodeId, powerlevel);
        r := Ok(Status(status));
    }

    /** The commands that invoke one driver operation and answer `{}`. */
    method HandleDriverOperation(message: DriverMessage) returns (r: Result<DriverResult, ServerError>)
      requires message.DisableStatistics? || message.EnableStatistics? || message.SetPreferredScales?
            || message.SoftReset? || message.TrySoftReset? || message.UpdateOptions?
      requires clientsController.Valid()
      modifies driver, clientsController`loggingForwarderCalls, clientsController.clients`outbox, client`receiveLogs, timers`pending
      ensures HandledAs(message, r)
    {
      r := Ok(Empty);
      match message
      case DisableStatistics =>
        driver.Perform(DriverCall.DisableStatistics);
      case EnableStatistics(applicationName, applicationVersion) =>
        driver.Perform(DriverCall.EnableStatistics(applicationName, applicationVersion));
      case SetPreferredScales(scales) =>
        driver.Perform(DriverCall.SetPreferredScales(scales));
      case SoftReset =>
        driver.Perform(DriverCall.SoftReset);
      case TrySoftReset =>
        driver.Perform(DriverCall.TrySoftReset);
      case UpdateOptions(options) =>
        driver.Perform(DriverCall.UpdateOptions(options));
    }

    /** The commands that read state, queue work, or are rejected. */
    method HandleOther(message: DriverMessage) returns (r: Result<DriverResult, ServerError>)
      requires message.GetConfig? || message.GetLogConfig? || message.IsStatisticsEnabled?
            || message.EnableErrorReporting? || message.HardReset? || message.Unrecognized?
      requires clientsController.Valid()
      modifies driver, clientsController`loggingForwarderCalls, clientsController.clients`outbox, client`receiveLogs, timers`pending
      ensures HandledAs(message, r)
    {
      match message
      case GetConfig =>
        r := Ok(Config(dumps.dumpDriver(driver.State(), client.schemaVersion)));
      case GetLogConfig =>
        r := Ok(Config(dumps.dumpLogConfig(driver.State(), client.schemaVersion)));
      case IsStatisticsEnabled =>
        r := Ok(StatisticsEnabled(driver.statisticsEnabled));
      case EnableErrorReporting =>
        r := Ok(Empty);
      case HardReset =>
        timers.Schedule(HardResetController);
        r := Ok(Empty);
      case Unrecognized(command) =>
        r := Err(UnknownCommand(command));
    }

    /** One turn of the event loop: the command is handled and its reply
        formed first; the queued timer tasks run after that. */
    method HandleThenRunTimers(message: DriverMessage) returns (r: Result<DriverResult, ServerError>)
      requires clientsController.Valid()
      modifies driver, clientsController`loggingForwarderCalls, clientsController.clients`outbox, client`receiveLogs, timers`pending
      modifies remoteController`hardResets
      ensures r.Err? <==> message.Unrecognized?
      ensures timers.pending == []
      ensures message.HardReset? ==>
        r == Ok(Empty) && remoteController.hardResets == old(remoteController.hardResets) + |old(timers.pending)| + 1
      ensures !message.HardReset? ==> remoteController.hardResets == old(remoteController.hardResets) + |old(timers.pending)|
    {
      r := Handle(message);
      timers.RunPending(remoteController);
    }
  }
}
