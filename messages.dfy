/** The values that travel between the gateway and its clients: JSON-shaped
    payloads, event envelopes, value identifiers and the typed errors a
    command handler throws. */
module Messages {
  import opened Wrappers

  /** A JSON-shaped value, as carried in command fields and event payloads. */
  datatype Json =
    | JNull
    | JBool(b: bool)
    | JNumber(n: int)
    | JString(s: string)
    | JArray(items: seq<Json>)
    | JObject(fields: map<string, Json>)

  /** An event envelope `{ source, event, ...fields }` handed to a client. */
  datatype OutgoingEvent = OutgoingEvent(source: string, event: string, fields: map<string, Json>)

  /** A command class of the mesh protocol, by its numeric identifier. */
  type CommandClass = int

  /** The driver's identifier of one value of a device. */
  datatype ValueId = ValueId(commandClass: CommandClass, endpoint: Option<int>, property: Json, propertyKey: Option<Json>)

  /** The errors the command routers throw before any driver call is made.
      `VirtualEndpointNotFound` carries the constructor arguments of the
      gateway's error class: the index, the group's node ids (if any) and the
      broadcast flag (if given). */
  datatype ServerError =
    | UnknownCommand(command: string)
    | VirtualEndpointNotFound(index: int, nodeIDs: Option<seq<int>>, broadcast: Option<bool>)
}
