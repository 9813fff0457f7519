/** The command router of a multicast group: a virtual node built from the
    node ids named in the message, to which commands are sent as one. */
module MulticastGroup {
  import opened Wrappers
  import opened Messages
  import opened VirtualNodes

  /** What the router reads from the driver: the multicast group for a list
      of node ids, and the command-class operations of virtual endpoints. */
  datatype MulticastGroupDriver = MulticastGroupDriver(
    getMulticastGroup: seq<int> -> VirtualNode,
    api: EndpointApi)

  /** A decoded multicast-group command: one constructor per entry of the
      router's table, and `Unrecognized` for any other command tag. */
  datatype Command =
    | SetValue(valueId: ValueId, value: Json, options: Option<Json>)
    | GetEndpointCount
    | SupportsCC(index: Option<int>, commandClass: CommandClass)
    | GetCCVersion(index: Option<int>, commandClass: CommandClass)
    | InvokeCCAPI(index: Option<int>, commandClass: CommandClass, methodName: string, args: seq<Json>)
    | SupportsCCAPI(index: Option<int>, commandClass: CommandClass)
    | GetDefinedValueIDs
    | Unrecognized(command: string)
  {
    /** The commands that act on an endpoint addressed by `index`. */
    predicate TargetsEndpoint() {
      SupportsCC? || GetCCVersion? || InvokeCCAPI? || SupportsCCAPI?
    }
  }

  datatype IncomingMessage = IncomingMessage(nodeIDs: seq<int>, command: Command)

  /** The response payloads of the router. */
  datatype Response =
    | SetValueSucceeded(success: bool)          // `{ success }`, schema version below 29
    | SetValueOutcome(result: SetValueResult)   // `{ result }`, schema version 29 and above
    | EndpointCount(count: int)
    | Supported(supported: bool)
    | CCVersion(version: int)
    | CCResponse(response: Json)
    | ValueIDs(valueIDs: seq<ValueId>)

  /** The first schema version whose clients receive the structured set-value result. */
  const StructuredResultVersion := 29

  /** The statuses a client below version 29 is told were a success. */
  predicate ReportsSuccess(status: SetValueStatus) {
    status == Working || status == Success || status == SuccessUnsupervised
  }

  /** `!index` for an index of type `number | undefined`: absent, or zero. */
  predicate AddressesNodeItself(index: Option<int>) {
    index.None? || index.value == 0
  }

  /** Resolves the addressed endpoint of the group `node` built from `nodeIDs`. */
  function GetVirtualEndpoint(node: VirtualNode, nodeIDs: seq<int>, index: Option<int>): (r: Result<Endpoint, ServerError>)
    ensures AddressesNodeItself(index) ==> r == Ok(node.asEndpoint)
    ensures !AddressesNodeItself(index) ==> (r.Ok? <==> node.getEndpoint(index.value).Some?)
    ensures !AddressesNodeItself(index) && r.Ok? ==> node.getEndpoint(index.value) == Some(r.value)
    ensures r.Err? ==> !AddressesNodeItself(index) && r.error == VirtualEndpointNotFound(index.value, Some(nodeIDs), None)
  {
    if AddressesNodeItself(index) then Ok(node.asEndpoint)
    else
      match node.getEndpoint(index.value)
      case None => Err(VirtualEndpointNotFound(index.value, Some(nodeIDs), None))
      case Some(endpoint) => Ok(endpoint)
  }

  /** The endpoint an endpoint-targeting command of `message` resolves to. */
  function Target(message: IncomingMessage, driver: MulticastGroupDriver): Result<Endpoint, ServerError>
    requires message.command.TargetsEndpoint()
  {
    GetVirtualEndpoint(driver.getMulticastGroup(message.nodeIDs), message.nodeIDs, message.command.index)
  }

  /** Handles one multicast-group command for a client speaking `schemaVersion`. */
  function Handle(message: IncomingMessage, driver: MulticastGroupDriver, schemaVersion: int): (r: Result<Response, ServerError>)
    // an unknown tag is rejected, carrying the tag
    ensures message.command.Unrecognized? ==> r == Err(UnknownCommand(message.command.command))
    // the only other failure is a missing endpoint, raised before any command-class call
    ensures r.Err? <==> message.command.Unrecognized? || (message.command.TargetsEndpoint() && Target(message, driver).Err?)
    ensures message.command.TargetsEndpoint() && Target(message, driver).Err? ==> r == Err(Target(message, driver).error)
    // endpoint commands act on the resolved endpoint
    ensures message.command.TargetsEndpoint() && Target(message, driver).Ok? ==>
      var e := Target(message, driver).value;
      match message.command
      case SupportsCC(_, cc) => r == Ok(Supported(driver.api.supportsCC(e, cc)))
      case GetCCVersion(_, cc) => r == Ok(CCVersion(driver.api.getCCVersion(e, cc)))
      case InvokeCCAPI(_, cc, m, args) => r == Ok(CCResponse(driver.api.invokeCCAPI(e, cc, m, args)))
      case SupportsCCAPI(_, cc) => r == Ok(Supported(driver.api.supportsCCAPI(e, cc)))
      case _ => false
    // group commands act on the group built from the message's node ids
    ensures message.command.GetEndpointCount? ==> r == Ok(EndpointCount(driver.getMulticastGroup(message.nodeIDs).endpointCount))
    ensures message.command.GetDefinedValueIDs? ==> r == Ok(ValueIDs(driver.getMulticastGroup(message.nodeIDs).definedValueIDs))
    // set-value results are shaped by the client's schema version
    ensures message.command.SetValue? ==>
      var result := driver.getMulticastGroup(message.nodeIDs).setValue(message.command.valueId, message.command.value, message.command.options);
      r == if schemaVersion < StructuredResultVersion then Ok(SetValueSucceeded(ReportsSuccess(result.status))) else Ok(SetValueOutcome(result))
  {
    var virtualNode := driver.getMulticastGroup(message.nodeIDs);
    match message.command
    case SetValue(valueId, value, options) =>
      var result := virtualNode.setValue(valueId, value, options);
      if schemaVersion < StructuredResultVersion then
        Ok(SetValueSucceeded(ReportsSuccess(result.status)))
      else
        Ok(SetValueOutcome(result))
    case GetEndpointCount =>
      Ok(EndpointCount(virtualNode.endpointCount))
    case SupportsCC(index, cc) =>
      (match GetVirtualEndpoint(virtualNode, message.nodeIDs, index)
      case Err(error) => Err(error)
      case Ok(e) => Ok(Supported(driver.api.supportsCC(e, cc))))
    case GetCCVersion(index, cc) =>
      (match GetVirtualEndpoint(virtualNode, message.nodeIDs, index)
      case Err(error) => Err(error)
      case Ok(e) => Ok(CCVersion(driver.api.getCCVersion(e, cc))))
    case InvokeCCAPI(index, cc, methodName, args) =>
      (match GetVirtualEndpoint(virtualNode, message.nodeIDs, index)
      case Err(error) => Err(error)
      case Ok(e) => Ok(CCResponse(driver.api.invokeCCAPI(e, cc, methodName, args))))
    case SupportsCCAPI(index, cc) =>
      (match GetVirtualEndpoint(virtualNode, message.nodeIDs, index)
      case Err(error) => Err(error)
      case Ok(e) => Ok(Supported(driver.api.supportsCCAPI(e, cc))))
    case GetDefinedValueIDs =>
      Ok(ValueIDs(virtualNode.definedValueIDs))
    case Unrecognized(command) =>
      Err(UnknownCommand(command))
  }

  /** What a client below version 29 sees of a response shaped for version 29 or later. */
  function LegacyView(r: Result<Response, ServerError>): Result<Response, ServerError> {
    match r
    case Ok(SetValueOutcome(result)) => Ok(SetValueSucceeded(ReportsSuccess(result.status)))
    case _ => r
  }

  /** Two clients on either side of version 29 see one driver result: the
      legacy client's response is the legacy view of the current one. */
  lemma LegacyResponseIsViewOfCurrent(message: IncomingMessage, driver: MulticastGroupDriver, legacy: int, current: int)
    requires legacy < StructuredResultVersion <= current
    ensures Handle(message, driver, legacy) == LegacyView(Handle(message, driver, current))
  {
  }

  /** Only the set-value response depends on the client's schema version. */
  lemma OnlySetValueIsVersioned(message: IncomingMessage, driver: MulticastGroupDriver, v1: int, v2: int)
    requires !message.command.SetValue?
    ensures Handle(message, driver, v1) == Handle(message, driver, v2)
  {
  }

  /** Index absent or zero: the group itself, without consulting its endpoints
      (two groups that differ only in their endpoints resolve alike). */
  lemma NodeItselfSkipsLookup(node: VirtualNode, other: VirtualNode, nodeIDs: seq<int>, index: Option<int>)
    requires AddressesNodeItself(index) && other.asEndpoint == node.asEndpoint
    ensures GetVirtualEndpoint(node, nodeIDs, index) == GetVirtualEndpoint(other, nodeIDs, index) == Ok(node.asEndpoint)
  {
  }

  /** Group commands never resolve an endpoint: their response does not depend
      on which endpoints the group has. */
  lemma GroupCommandsIgnoreEndpoints(message: IncomingMessage, driver: MulticastGroupDriver, other: MulticastGroupDriver, schemaVersion: int)
    requires message.command.GetEndpointCount? || message.command.GetDefinedValueIDs?
    requires other.getMulticastGroup(message.nodeIDs).endpointCount == driver.getMulticastGroup(message.nodeIDs).endpointCount
    requires other.getMulticastGroup(message.nodeIDs).definedValueIDs == driver.getMulticastGroup(message.nodeIDs).definedValueIDs
    ensures Handle(message, driver, schemaVersion) == Handle(message, other, schemaVersion)
  {
  }
}
