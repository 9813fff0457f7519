/** The callbacks the driver invokes while a secure inclusion waits on the
    user: each request parks a deferred promise in the registry's slot for
    that interaction and tells the clients; a client's reply later settles
    the promise, and an abort drops both slots. */
module InclusionUserCallbacks {
  import opened Wrappers
  import opened Messages
  import opened Server

  /** The event asking the user which security classes to grant. */
  function GrantSecurityClassesEvent(requested: Json): OutgoingEvent {
    OutgoingEvent("controller", "grant security classes", map["requested" := requested])
  }

  /** The event asking the user to check the device key and enter its PIN. */
  function ValidateDSKAndEnterPinEvent(dsk: string): OutgoingEvent {
    OutgoingEvent("controller", "validate dsk and enter pin", map["dsk" := JString(dsk)])
  }

  /** The event telling the user that the inclusion was aborted. */
  const InclusionAbortedEvent := OutgoingEvent("controller", "inclusion aborted", map[])

  /** Whether a registered client is one the callbacks tell about the inclusion. */
  predicate Listens(c: Client)
    reads c
  {
    c.isConnected && c.receiveEvents
  }

  /** The callbacks over `clientsController`, bound to `client` when the
      inclusion was started by one client, and unbound otherwise. */
  class Callbacks {
    const clientsController: ClientsController
    const client: Option<Client>

    constructor (clientsController: ClientsController, client: Option<Client>)
      ensures this.clientsController == clientsController && this.client == client
    {
      this.clientsController := clientsController;
      this.client := client;
    }

    /** The clients an event of these callbacks may reach. */
    function Audience(): seq<Client>
      reads this, clientsController
    {
      if client.Some? then [client.value] else clientsController.clients
    }

    /** The client list was kept, and `event` went to the bound client only
        or, with no bound client, once to each registered client that is
        connected and receives events; no other client's outbox changed. */
    twostate predicate Delivered(event: OutgoingEvent)
      reads this, clientsController, clientsController.clients, if client.Some? then {client.value} else {}
    {
      && clientsController.clients == old(clientsController.clients)
      && match client
      case Some(bound) =>
        && bound.outbox == old(bound.outbox) + [event]
        && forall c :: c in clientsController.clients && c != bound ==> c.outbox == old(c.outbox)
      case None =>
        forall c :: c in clientsController.clients ==>
          c.outbox == if Listens(c) then old(c.outbox) + [event] else old(c.outbox)
    }

    /** Sends `event` to the audience of the callbacks. */
    method SendToAudience(event: OutgoingEvent)
      requires clientsController.Valid()
      modifies Audience()`outbox
      ensures Delivered(event)
    {
      if client.Some? {
        assert client.value in Audience();
        client.value.SendEvent(event);
      } else {
        var clients := clientsController.clients;
        var i := 0;
        while i < |clients|
          invariant 0 <= i <= |clients|
          invariant forall k :: 0 <= k < i ==>
            clients[k].outbox == if Listens(clients[k]) then old(clients[k].outbox) + [event] else old(clients[k].outbox)
          invariant forall k :: i <= k < |clients| ==> clients[k].outbox == old(clients[k].outbox)
        {
          if Listens(clients[i]) {
            clients[i].SendEvent(event);
          }
          i := i + 1;
        }
      }
    }

    /** The driver asks which of the `requested` security classes to grant:
        a fresh pending promise replaces whatever was in the grant slot, the
        audience is told, and the promise is handed back to the driver. */
    method GrantSecurityClasses(requested: Json) returns (promise: DeferredPromise)
      requires clientsController.Valid()
      modifies clientsController`grantSecurityClassesPromise, Audience()`outbox
      ensures fresh(promise) && promise.kind == InteractionKind.GrantSecurityClasses && promise.settlement == Pending
      ensures clientsController.grantSecurityClassesPromise == Some(promise)
      ensures clientsController.validateDSKAndEnterPinPromise == old(clientsController.validateDSKAndEnterPinPromise)
      ensures Delivered(GrantSecurityClassesEvent(requested))
    {
      promise := new DeferredPromise(InteractionKind.GrantSecurityClasses);
      clientsController.grantSecurityClassesPromise := Some(promise);
      SendToAudience(GrantSecurityClassesEvent(requested));
    }

    /** The driver asks the user to check the device key `dsk` and enter its
        PIN; the same as `GrantSecurityClasses`, on the other slot. */
    method ValidateDSKAndEnterPIN(dsk: string) returns (promise: DeferredPromise)
      requires clientsController.Valid()
      modifies clientsController`validateDSKAndEnterPinPromise, Audience()`outbox
      ensures fresh(promise) && promise.kind == InteractionKind.ValidateDSKAndEnterPin && promise.settlement == Pending
      ensures clientsController.validateDSKAndEnterPinPromise == Some(promise)
      ensures clientsController.grantSecurityClassesPromise == old(clientsController.grantSecurityClassesPromise)
      ensures Delivered(ValidateDSKAndEnterPinEvent(dsk))
    {
      promise := new DeferredPromise(InteractionKind.ValidateDSKAndEnterPin);
      clientsController.validateDSKAndEnterPinPromise := Some(promise);
      SendToAudience(ValidateDSKAndEnterPinEvent(dsk));
    }

    /** The driver aborts the inclusion: both slots are emptied, without
        settling the promises they held, and the audience is told. */
    method Abort()
      requires clientsController.Valid()
      modifies clientsController`grantSecurityClassesPromise, clientsController`validateDSKAndEnterPinPromise, Audience()`outbox
      ensures clientsController.grantSecurityClassesPromise.None?
      ensures clientsController.validateDSKAndEnterPinPromise.None?
      ensures Delivered(InclusionAbortedEvent)
    {
      clientsController.grantSecurityClassesPromise := None;
      clientsController.validateDSKAndEnterPinPromise := None;
      SendToAudience(InclusionAbortedEvent);
    }
  }

  /** A client's reply settles `promise` with `outcome`. Settling a pending
      promise runs its `finally` step, which empties the slot of the
      promise's interaction whatever promise is in it at that moment; a
      promise that already settled is left as it is, and so are the slots. */
  method Settle(clientsController: ClientsController, promise: DeferredPromise, outcome: Settlement)
    requires !outcome.Pending?
    modifies promise`settlement, clientsController`grantSecurityClassesPromise, clientsController`validateDSKAndEnterPinPromise
    ensures old(promise.settlement).Pending? ==>
      && promise.settlement == outcome
      && clientsController.Slot(promise.kind).None?
      && forall other :: other != promise.kind ==> clientsController.Slot(other) == old(clientsController.Slot(other))
    ensures !old(promise.settlement).Pending? ==>
      && promise.settlement == old(promise.settlement)
      && forall kind :: clientsController.Slot(kind) == old(clientsController.Slot(kind))
  {
    if promise.settlement.Pending? {
      promise.settlement := outcome;
      if clientsController.Slot(promise.kind).Some? {
        clientsController.SetSlot(promise.kind, None);
      }
    }
  }
}
