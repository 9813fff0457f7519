# A model of the Z-Wave JS server's command and event core

The Z-Wave JS server is a WebSocket gateway in front of the zwave-js
mesh-network driver. Clients send commands and receive events. This project
models the part of the server that decides things:

- which command does what;
- who receives which event;
- how a payload is shaped for a client's schema version;
- what happens to the pending user interactions of a secure inclusion.

It then proves properties of that model. The driver, the state dumpers and the
promise library are foreign to the server. Their results are inputs of the
model: function-typed fields of a datatype, or values the model leaves open.

The modules follow the server's files:

- `MulticastGroup` and `BroadcastNode`: the routers of commands sent to a
  virtual node. A multicast group is built from the message's node ids; the
  broadcast node stands for every device.
- `EndpointResolution`: how the two routers' endpoint lookups differ.
- `MetadataHandler`: the in-place rewrite of value metadata for old clients.
- `InclusionUserCallbacks`: the callbacks the driver calls while an inclusion
  waits on the user. The clients controller has two slots for pending
  promises, which the callbacks fill and clear.
- `DriverHandler`: the driver-domain command handler. It works on a driver
  state, the client registry and the calling client, and it has a queue of
  timer tasks.
- `Forward`: the event forwarder. It turns native driver, controller and
  node events into outgoing envelopes.
- `ControllerCommand`: the controller's command-tag table, with its
  schema-version annotations.
- Shared modules:
  - `Wrappers`: `Option` and `Result`.
  - `Messages`: JSON values, outgoing events and server errors.
  - `VirtualNodes`: the driver's virtual node interface.
  - `Server`: clients, the clients controller, deferred promises and the
    remote controller.
  - `ZwaveDriver`: the driver. It logs every operation invoked on it, with
    the answer the driver gave.

The incoming messages of the multicast, broadcast and driver routers arrive
already decoded. Each has one constructor per entry of the router's table,
plus `Unrecognized(command)` for any other tag.

## Model

| member | source | states |
|---|---|---|
| MulticastGroup.GetVirtualEndpoint | src/lib/multicast_group/message_handler.ts:87-98 | An absent or zero index resolves to the group itself. Any other index resolves to exactly the endpoint the group's lookup returns. When the lookup finds nothing, the result is `VirtualEndpointNotFound` carrying the index and the group's node ids, with no broadcast flag. |
| MulticastGroup.Handle | src/lib/multicast_group/message_handler.ts:9-85 | An unknown tag fails with `UnknownCommand` carrying the tag. The router's only other failure is a missing endpoint on the four command-class commands, and then no command-class call is made. Those four commands act on the resolved endpoint. `getEndpointCount` and `getDefinedValueIDs` act on the group built from the message's node ids. Below version 29, `setValue` answers success exactly when the status is Working, Success or SuccessUnsupervised. From version 29 on, it passes the driver's result through unchanged. |
| MulticastGroup.LegacyResponseIsViewOfCurrent | src/lib/multicast_group/message_handler.ts:19-35 | For the same driver, a client below version 29 gets the boolean view of the structured result that a client at version 29 or above gets, and the same response for every other command. |
| MulticastGroup.OnlySetValueIsVersioned | src/lib/multicast_group/message_handler.ts:36-83 | Every command other than `setValue` gets the same response at every schema version. |
| MulticastGroup.NodeItselfSkipsLookup | src/lib/multicast_group/message_handler.ts:92 | With an absent or zero index, two groups that differ only in their endpoint lookup resolve to the same target: the group itself. |
| MulticastGroup.GroupCommandsIgnoreEndpoints | src/lib/multicast_group/message_handler.ts:36-79 | `getEndpointCount` and `getDefinedValueIDs` answer the same for two drivers whose groups agree on the count and the value ids, whatever their endpoints are. |
| BroadcastNode.GetVirtualEndpoint | src/lib/broadcast_node/message_handler.ts:45-54 | Every index is looked up, zero included. The result is Ok exactly when the lookup finds an endpoint, and then it is that endpoint. Otherwise it is `VirtualEndpointNotFound` carrying the index, no node ids and the broadcast flag. |
| BroadcastNode.Handle | src/lib/broadcast_node/message_handler.ts:8-42 | An unknown tag fails with `UnknownCommand` carrying the tag. The router's only other failure is a missing endpoint for `supportsCC` or `getCCVersion`, and then no command-class call is made. `getEndpointCount` is the broadcast node's own count. `setValue` answers the driver's structured result unchanged, under the key `success`, at every schema version. |
| BroadcastNode.EndpointCountIgnoresEndpoints | src/lib/broadcast_node/message_handler.ts:24-26 | The endpoint count does not depend on which endpoints the broadcast node has. |
| EndpointResolution.ZeroIndexDiffers | src/lib/broadcast_node/message_handler.ts:45-53 | At index zero the multicast group answers with itself. The broadcast node answers whatever the lookup of zero gives, including the not-found error. |
| EndpointResolution.NonzeroIndexAgrees | src/lib/multicast_group/message_handler.ts:93-97 | At a nonzero index with the same lookup, both routers agree on success and on the endpoint found. When the endpoint is missing, both raise `VirtualEndpointNotFound` for that index. The multicast error carries the node ids and the broadcast error carries only the broadcast flag. |
| MetadataHandler.TransformedType | src/util/metadata_handler.ts:18-20 | Below version 2, "buffer" becomes "string" and no result is "buffer". From version 2 on, and for every type other than "buffer", the type is kept. |
| MetadataHandler.TransformIsIdempotent | src/util/metadata_handler.ts:18-20 | Transforming twice gives the same type as transforming once. |
| MetadataHandler.SchemaTransformValueMetadata | src/util/metadata_handler.ts:14-21 | The metadata object is rewritten in place: its type becomes the transformed type, and every other property is kept. |
| MetadataHandler.GetTransformedValueMetadata | src/util/metadata_handler.ts:3-12 | Returns the node's own metadata object for the value id, with the transform applied to it in place. |
| InclusionUserCallbacks.Callbacks.SendToAudience | src/lib/inclusion_user_callbacks.ts:18-33 | A bound client receives the event once, and no other registered client receives anything. With no bound client, each registered client receives the event once exactly when it is connected and receives events; every other client receives nothing. The client list is kept. |
| InclusionUserCallbacks.Callbacks.GrantSecurityClasses | src/lib/inclusion_user_callbacks.ts:10-37 | A fresh pending promise replaces whatever was in the grant slot, and that same promise is returned. The validation slot is kept. The "grant security classes" event, carrying the request, goes to the audience. |
| InclusionUserCallbacks.Callbacks.ValidateDSKAndEnterPIN | src/lib/inclusion_user_callbacks.ts:38-64 | The same as the grant request, on the validation slot. Its event carries the given device key. |
| InclusionUserCallbacks.Callbacks.Abort | src/lib/inclusion_user_callbacks.ts:65-83 | Both slots are emptied, whatever they held. The "inclusion aborted" event goes to the same audience as the requests. |
| InclusionUserCallbacks.Settle | src/lib/inclusion_user_callbacks.ts:13-17 | Settling a pending promise records the outcome and empties the slot of the promise's interaction. The other slot is kept. A promise that has already settled, and both slots, are left unchanged. |
| DriverHandler.DriverMessageHandler.Handle | src/lib/driver/message_handler.ts:26-133 | The handler's only own failure is an unknown tag, which fails with `UnknownCommand` carrying the tag and has no effect. Every other command has the reply and the effects that `HandledAs` lists for it. |
| DriverHandler.DriverMessageHandler.HandleOther | src/lib/driver/message_handler.ts:31-131 | `getConfig` and `getLogConfig` dump state at the requesting client's schema version. `isStatisticsEnabled` reads the driver's flag. `enableErrorReporting` answers `{}` and changes nothing. `hardReset` answers `{}` and only queues the reset. |
| DriverHandler.DriverMessageHandler.HandleDriverOperation | src/lib/driver/message_handler.ts:35-121 | Each of these commands invokes its one driver operation with the message's arguments and answers `{}`. No event is sent, logging is unchanged and nothing is queued. |
| DriverHandler.DriverMessageHandler.HandleAwaited | src/lib/driver/message_handler.ts:78-128 | `checkForConfigUpdates` answers the version installed before the check, and reports an update available exactly when the driver found a new version. `installConfigUpdate` and `shutdown` answer the driver's boolean. `sendTestFrame` answers the driver's status. Each invokes exactly its driver operation. |
| DriverHandler.DriverMessageHandler.HandleLogging | src/lib/driver/message_handler.ts:50-77 | `updateLogConfig` updates the driver, asks the logging forwarder to restart if needed, and sends every registered client one log-config event. `startListeningLogs` turns on only the caller's log subscription and configures the forwarder with the filter. `stopListeningLogs` turns it off and cleans the forwarder up. Other clients' subscriptions are kept. |
| DriverHandler.DriverMessageHandler.SendLogConfigToAll | src/lib/driver/message_handler.ts:55-61 | Every registered client receives one "log config updated" event, whether or not it receives events. Each event's configuration is dumped at that client's own schema version. |
| DriverHandler.DriverMessageHandler.HandleThenRunTimers | src/lib/driver/message_handler.ts:110-113 | The reply is formed before any timer task runs. A hard reset answers `{}`, and the controller is reset once, after the reply, once the earlier queued tasks have run. No other command resets it. |
| DriverHandler.TimerQueue.RunPending | src/lib/driver/message_handler.ts:111 | Every queued task runs once, oldest first, and the queue ends empty. |
| Forward.NotifyNode | src/lib/forward.ts:103-109 | A node envelope has source "node", the event name, the node's id, and the payload keys, which override the id. |
| Forward.Payload | src/lib/forward.ts:111-173 | Each node event's payload has exactly its group's keys. |
| Forward.NodeEventEnvelope | src/lib/forward.ts:111-173 | Nothing is forwarded exactly for a value update or addition on a node that is not ready. Otherwise the envelope has source "node", the event's name, the node id, and the payload keys of the event. |
| Forward.EnvelopeCarriesArguments | src/lib/forward.ts:111-173 | A forwarded envelope carries different payloads by event. `interview completed` and `ready` carry a node dump. The status events carry the old status. `value removed` and `interview failed` carry their arguments unchanged, whether or not the node is ready. The firmware events carry their two arguments unchanged. |
| Forward.ControllerEventEnvelope | src/lib/forward.ts:43-97 | A controller envelope has source "controller" and the event name. The five plain events carry nothing else. "node added" and "node removed" carry exactly a dump of the node under `node`. "inclusion started" carries `secure`, and the heal events carry `progress` and `result`, each unchanged and as the only field. |
| Forward.EmitterOfEveryNode | src/lib/forward.ts:39 | Every node object known at start is among the subscriptions that start adds. |
| Forward.EventForwarder.Start | src/lib/forward.ts:31-98 | Registers the all-nodes-ready handler and the controller handlers once each. Subscribes every node object known at start, once per node. Forwards nothing. |
| Forward.EventForwarder.SetupNode | src/lib/forward.ts:100-174 | Adds one set of node handlers on the node object. |
| Forward.EventForwarder.OnAllNodesReady | src/lib/forward.ts:32-37 | Each registered handler forwards "all nodes ready" once and is then dropped. |
| Forward.EventForwarder.OnControllerEvent | src/lib/forward.ts:43-97 | Each registered controller handler forwards the event's envelope. On "node added", each handler then subscribes the new node object. No other event changes the subscriptions. |
| Forward.EventForwarder.OnNodeEvent | src/lib/forward.ts:111-173 | Each set of handlers registered on the node object forwards the node event's envelope, or nothing when the readiness filter drops it. |
| ControllerCommand.ToTag | src/lib/controller/command.ts:1-53 | Every tag begins with "controller.". |
| ControllerCommand.SuffixRoundTrip | src/lib/controller/command.ts:2-52 | Decoding the part of a tag after "controller." gives back its command. |
| ControllerCommand.TagRoundTrip | src/lib/controller/command.ts:2-52 | Decoding a command's tag gives back the command. |
| ControllerCommand.TagsAreDistinct | src/lib/controller/command.ts:2-52 | Two commands with the same tag are the same command, so the tags are pairwise distinct. |
| ControllerCommand.Annotation | src/lib/controller/command.ts:8-29 | Only the three heal entries and the misspelled association entry are annotated for versions below a bound. Only their four renamed counterparts are annotated for versions above one. |
| ControllerCommand.Replacement | src/lib/controller/command.ts:8-29 | Exactly the entries limited to versions below a bound have a replacement. The replacement is the entry annotated for versions above that bound less one. |
| ControllerCommand.PairPartitionsVersions | src/lib/controller/command.ts:8-29 | For each legacy/renamed pair, every integer schema version is in exactly one of the two annotated ranges. |
| ControllerCommand.RenamedEntriesHaveLegacyPartner | src/lib/controller/command.ts:8-29 | Every entry annotated for versions above a bound replaces some legacy entry. |
| ControllerCommand.PairsSpanSupportedVersions | src/lib/const.ts:4-7 | For each pair, the legacy entry applies at the lowest supported schema version (0) and not at the highest (40). The renamed entry applies at the highest and not at the lowest. |

## Left out

- The tag tables of the multicast, broadcast and driver commands, in the `command.ts` file of each, are not part of this model. Messages arrive decoded, and an unknown tag is a constructor of its own.
- zwave-js is foreign:
  - The virtual nodes, endpoints and command-class calls are function-typed inputs.
  - The driver's operations change its state in ways the model leaves open. Their answers are arbitrary, and each one is recorded in the driver's call log.
  - `getMulticastGroup` is total here; the model does not capture it throwing.
  - The other foreign calls never fail in the model either. This covers `setValue`, the command-class calls and every driver operation. In the source a rejection of any of them fails the command.
- MulticastGroup.Handle: its "only other failure" clause covers only the router's own errors, because `setValue` and the command-class calls never fail in the model.
- BroadcastNode.Handle: its "only other failure" clause covers only the router's own errors, for the same reason.
- DriverHandler.DriverMessageHandler.Handle: `r.Err? <==> message.Unrecognized?` covers only the handler's own error, because the awaited driver operations never fail in the model.
- The state dumpers (`dumpDriver`, `dumpLogConfig`, `dumpNode`, `dumpValue`) are uninterpreted functions of state and schema version.
- The clients controller's logging-forwarder methods are not modelled by their effects. The model records only that they were called, and in which order.
- Logger output is not modelled, including the warning that `enableErrorReporting` logs.
- The transport behind `sendEvent` is not modelled. Sending appends to the client's outbox.
- The event emitter is modelled by counts of registered handlers.
  - Node handlers are counted per node object (`ZWaveNode.emitter`), not per node id. A node that joins under the id of a removed node is a new object. The removed node's handlers stay registered on the old object and never fire for the new one.
  - Each registered handler of an event forwards once, with no order between handlers.
  - Nothing guards against subscribing one node object twice. The source has no such guard, and the counts show the duplicates.
  - The model does not check that distinct node objects get distinct `emitter` values. The caller of the model chooses them.
- Forward.EventForwarder.OnControllerEvent: the order between the "node added" envelope and the new node's subscription is not stated. One method call makes both changes, so no other event can see the state between them.
- The hard reset's `setTimeout` delay is modelled as a queue of tasks that runs after the reply, not as time.
- InclusionUserCallbacks.Settle: settlement and its `finally` step happen in one step, not in a later turn of the event loop.
- The promise library's internals, and the `.catch` that swallows a rejection, are not modelled.
- ControllerCommand.FromTag: the model proves that decoding a command's tag gives back the command. It does not prove the converse, that every string `FromTag` accepts is the tag of the command it returns.
- The `response` of `invokeCCAPI` is taken as the value the call returns. The model does not treat it as a promise.
- Endpoint indices are integers or absent. JavaScript's other falsy numbers, such as NaN, are not modelled.
- `src/lib/node/outgoing_message.ts` declares only types. It declares the responses of the single-node router, and that router is not part of this model. `MulticastGroup.Response` mirrors the same split of the set-value response at version 29.
