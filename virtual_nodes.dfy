/** The part of the driver's interface that the two virtual-target routers
    consume: a virtual node (a multicast group or the broadcast node), the
    endpoints it hands out, and the command-class operations on them.
    The driver is foreign, so each operation is a given function: the model
    says which operation is called on which target, not what it computes. */
module VirtualNodes {
  import opened Wrappers
  import opened Messages

  /** The identity of one virtual endpoint object handed out by the driver. */
  datatype Endpoint = Endpoint(handle: int)

  /** A virtual node (a multicast group or the broadcast node) as the driver
      hands it out.
      - asEndpoint: the virtual node itself, used as an endpoint;
      - getEndpoint: the endpoint with a given index, if the driver has one;
      - endpointCount, definedValueIDs: what the node's own queries return;
      - setValue: what awaiting `setValue(valueId, value, options)` yields. */
  datatype VirtualNode = VirtualNode(
    asEndpoint: Endpoint,
    getEndpoint: int -> Option<Endpoint>,
    endpointCount: int,
    definedValueIDs: seq<ValueId>,
    setValue: (ValueId, Json, Option<Json>) -> SetValueResult)

  /** The command-class operations of a virtual endpoint. */
  datatype EndpointApi = EndpointApi(
    supportsCC: (Endpoint, CommandClass) -> bool,
    getCCVersion: (Endpoint, CommandClass) -> int,
    supportsCCAPI: (Endpoint, CommandClass) -> bool,
    invokeCCAPI: (Endpoint, CommandClass, string, seq<Json>) -> Json)

  /** The driver's status of a set-value operation. */
  datatype SetValueStatus =
    | NoDeviceSupport
    | Working
    | Fail
    | EndpointNotFound
    | NotImplemented
    | InvalidValue
    | SuccessUnsupervised
    | Success

  /** The structured result of a set-value operation. */
  datatype SetValueResult = SetValueResult(status: SetValueStatus, remainingDuration: Option<Json>, message: Option<string>)
}
