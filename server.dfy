/** The parts of the gateway's server that the core reads and writes: the
    connected clients, the registry that holds them together with the two
    pending inclusion interactions, and the deferred promises those
    interactions wait on. The server's transport is not part of this model:
    sending an event appends it to the client's outbox. */
module Server {
  import opened Wrappers
  import opened Messages

  /** One connected client of the gateway. */
  class Client {
    /** The schema version the client negotiated; it never changes. */
    const schemaVersion: int
    var isConnected: bool
    /** Whether the client asked to receive events. */
    var receiveEvents: bool
    /** Whether the client asked to receive log lines. */
    var receiveLogs: bool
    /** Every event sent to the client, oldest first. */
    var outbox: seq<OutgoingEvent>

    constructor (schemaVersion: int, isConnected: bool, receiveEvents: bool)
      ensures this.schemaVersion == schemaVersion
      ensures this.isConnected == isConnected && this.receiveEvents == receiveEvents
      ensures !receiveLogs && outbox == []
    {
      this.schemaVersion := schemaVersion;
      this.isConnected := isConnected;
      this.receiveEvents := receiveEvents;
      receiveLogs := false;
      outbox := [];
    }

    /** Hands `event` to the client's transport. */
    method SendEvent(event: OutgoingEvent)
      modifies this`outbox
      ensures outbox == old(outbox) + [event]
    {
      outbox := outbox + [event];
    }
  }

  /** The two user interactions an inclusion can wait on. */
  datatype InteractionKind = GrantSecurityClasses | ValidateDSKAndEnterPin

  /** The state of a deferred promise. */
  datatype Settlement = Pending | Resolved(value: Json) | Rejected(reason: Json)

  /** A promise whose settlement is triggered from outside, by a client's reply. */
  class DeferredPromise {
    /** The interaction the promise waits on. */
    const kind: InteractionKind
    var settlement: Settlement

    constructor (kind: InteractionKind)
      ensures this.kind == kind && settlement == Pending
    {
      this.kind := kind;
      settlement := Pending;
    }
  }

  /** A request made to the logging event forwarder. */
  datatype LoggingForwarderCall =
    | RestartIfNeeded
    | Configure(filter: Option<Json>)
    | Cleanup

  /** The registry of connected clients, and the pending inclusion interactions. */
  class ClientsController {
    var clients: seq<Client>
    var grantSecurityClassesPromise: Option<DeferredPromise>
    var validateDSKAndEnterPinPromise: Option<DeferredPromise>
    /** The requests made to the logging event forwarder, oldest first. */
    var loggingForwarderCalls: seq<LoggingForwarderCall>

    /** Each client is registered once. */
    ghost predicate Valid()
      reads this
    {
      forall i, j :: 0 <= i < j < |clients| ==> clients[i] != clients[j]
    }

    constructor (clients: seq<Client>)
      requires forall i, j :: 0 <= i < j < |clients| ==> clients[i] != clients[j]
      ensures this.clients == clients && Valid()
      ensures grantSecurityClassesPromise.None? && validateDSKAndEnterPinPromise.None?
      ensures loggingForwarderCalls == []
    {
      this.clients := clients;
      grantSecurityClassesPromise := None;
      validateDSKAndEnterPinPromise := None;
      loggingForwarderCalls := [];
    }

    /** The pending slot of the interaction `kind`. */
    function Slot(kind: InteractionKind): Option<DeferredPromise>
      reads this
    {
      match kind
      case GrantSecurityClasses => grantSecurityClassesPromise
      case ValidateDSKAndEnterPin => validateDSKAndEnterPinPromise
    }

    /** Stores `promise` in the slot of `kind`; the other slot is kept. */
    method SetSlot(kind: InteractionKind, promise: Option<DeferredPromise>)
      modifies this`grantSecurityClassesPromise, this`validateDSKAndEnterPinPromise
      ensures Slot(kind) == promise
      ensures forall other :: other != kind ==> Slot(other) == old(Slot(other))
    {
      match kind
      case GrantSecurityClasses => grantSecurityClassesPromise := promise;
      case ValidateDSKAndEnterPin => validateDSKAndEnterPinPromise := promise;
    }

    /** Asks for the logging forwarder to be restarted if that is needed, so that it picks up a new log configuration. */
    method RestartLoggingEventForwarderIfNeeded()
      modifies this`loggingForwarderCalls
      ensures loggingForwarderCalls == old(loggingForwarderCalls) + [RestartIfNeeded]
    {
      loggingForwarderCalls := loggingForwarderCalls + [RestartIfNeeded];
    }

    /** Asks the logging forwarder to run with `filter`. */
    method ConfigureLoggingEventForwarder(filter: Option<Json>)
      modifies this`loggingForwarderCalls
      ensures loggingForwarderCalls == old(loggingForwarderCalls) + [Configure(filter)]
    {
      loggingForwarderCalls := loggingForwarderCalls + [Configure(filter)];
    }

    /** Asks for the logging forwarder to be cleaned up. */
    method CleanupLoggingEventForwarder()
      modifies this`loggingForwarderCalls
      ensures loggingForwarderCalls == old(loggingForwarderCalls) + [Cleanup]
    {
      loggingForwarderCalls := loggingForwarderCalls + [Cleanup];
    }
  }

  /** The server's handle on the controller, used to reset it to factory settings. */
  class RemoteController {
    /** How many controller hard resets were carried out. */
    var hardResets: nat

    constructor ()
      ensures hardResets == 0
    {
      hardResets := 0;
    }

    /** Resets the controller to factory settings. */
    method HardResetController()
      modifies this`hardResets
      ensures hardResets == old(hardResets) + 1
    {
      hardResets := hardResets + 1;
    }
  }
}
