/** The command router of the broadcast node: the virtual node that stands
    for every device of the network at once. */
module BroadcastNode {
  import opened Wrappers
  import opened Messages
  import opened VirtualNodes

  /** What the router reads from the driver: the broadcast node and the
      command-class operations of virtual endpoints. */
  datatype BroadcastNodeDriver = BroadcastNodeDriver(
    getBroadcastNode: VirtualNode,
    api: EndpointApi)

  /** A decoded broadcast-node command: one constructor per entry of the
      router's table, and `Unrecognized` for any other command tag. */
  datatype Command =
    | SetValue(valueId: ValueId, value: Json)
    | GetEndpointCount
    | SupportsCC(index: int, commandClass: CommandClass)
    | GetCCVersion(index: int, commandClass: CommandClass)
    | Unrecognized(command: string)
  {
    /** The commands that act on an endpoint addressed by `index`. */
    predicate TargetsEndpoint() {
      SupportsCC? || GetCCVersion?
    }
  }

  /** The response payloads of the router. */
  datatype Response =
    | SetValueSucceeded(success: SetValueResult)   // the driver's result, under the key `success`
    | EndpointCount(count: int)
    | Supported(supported: bool)
    | CCVersion(version: int)

  /** Resolves the addressed endpoint of the broadcast node: every index,
      zero included, is looked up. */
  function GetVirtualEndpoint(node: VirtualNode, index: int): (r: Result<Endpoint, ServerError>)
    ensures r.Ok? <==> node.getEndpoint(index).Some?
    ensures r.Ok? ==> node.getEndpoint(index) == Some(r.value)
    ensures r.Err? ==> r.error == VirtualEndpointNotFound(index, None, Some(true))
  {
    match node.getEndpoint(index)
    case None => Err(VirtualEndpointNotFound(index, None, Some(true)))
    case Some(endpoint) => Ok(endpoint)
  }

  /** The endpoint an endpoint-targeting command resolves to. */
  function Target(command: Command, driver: BroadcastNodeDriver): Result<Endpoint, ServerError>
    requires command.TargetsEndpoint()
  {
    GetVirtualEndpoint(driver.getBroadcastNode, command.index)
  }

  /** Handles one broadcast-node command; no response depends on the client's schema version. */
  function Handle(command: Command, driver: BroadcastNodeDriver): (r: Result<Response, ServerError>)
    // an unknown tag is rejected, carrying the tag
    ensures command.Unrecognized? ==> r == Err(UnknownCommand(command.command))
    // the only other failure is a missing endpoint, raised before any command-class call
    ensures r.Err? <==> command.Unrecognized? || (command.TargetsEndpoint() && Target(command, driver).Err?)
    ensures command.TargetsEndpoint() && Target(command, driver).Err? ==> r == Err(Target(command, driver).error)
    // endpoint commands act on the resolved endpoint
    ensures command.SupportsCC? && Target(command, driver).Ok? ==>
      r == Ok(Supported(driver.api.supportsCC(Target(command, driver).value, command.commandClass)))
    ensures command.GetCCVersion? && Target(command, driver).Ok? ==>
      r == Ok(CCVersion(driver.api.getCCVersion(Target(command, driver).value, command.commandClass)))
    // the endpoint count is the broadcast node's own
    ensures command.GetEndpointCount? ==> r == Ok(EndpointCount(driver.getBroadcastNode.endpointCount))
    // the driver's set-value result is passed on unshaped, at every schema version
    ensures command.SetValue? ==> r == Ok(SetValueSucceeded(driver.getBroadcastNode.setValue(command.valueId, command.value, None)))
  {
    var virtualNode := driver.getBroadcastNode;
    match command
    case SetValue(valueId, value) =>
      Ok(SetValueSucceeded(virtualNode.setValue(valueId, value, None)))
    case GetEndpointCount =>
      Ok(EndpointCount(virtualNode.endpointCount))
    case SupportsCC(index, cc) =>
      (match GetVirtualEndpoint(virtualNode, index)
      case Err(error) => Err(error)
      case Ok(e) => Ok(Supported(driver.api.supportsCC(e, cc))))
    case GetCCVersion(index, cc) =>
      (match GetVirtualEndpoint(virtualNode, index)
      case Err(error) => Err(error)
      case Ok(e) => Ok(CCVersion(driver.api.getCCVersion(e, cc))))
    case Unrecognized(tag) =>
      Err(UnknownCommand(tag))
  }

  /** The endpoint count never depends on which endpoints the broadcast node has. */
  lemma EndpointCountIgnoresEndpoints(driver: BroadcastNodeDriver, other: BroadcastNodeDriver)
    requires other.getBroadcastNode.endpointCount == driver.getBroadcastNode.endpointCount
    ensures Handle(GetEndpointCount, driver) == Handle(GetEndpointCount, other)
  {
  }
}

/** How the two virtual-target routers resolve an endpoint index, side by side. */
module EndpointResolution {
  import opened Wrappers
  import opened Messages
  import opened VirtualNodes
  import MulticastGroup
  import BroadcastNode

  /** Index zero: the multicast group answers with itself whatever its
      endpoints are, while the broadcast node reports exactly what the
      driver's lookup of index zero gives. */
  lemma ZeroIndexDiffers(group: VirtualNode, nodeIDs: seq<int>, broadcast: VirtualNode)
    ensures MulticastGroup.GetVirtualEndpoint(group, nodeIDs, Some(0)) == Ok(group.asEndpoint)
    ensures BroadcastNode.GetVirtualEndpoint(broadcast, 0).Ok? <==> broadcast.getEndpoint(0).Some?
    ensures broadcast.getEndpoint(0).None? ==> BroadcastNode.GetVirtualEndpoint(broadcast, 0) == Err(VirtualEndpointNotFound(0, None, Some(true)))
  {
  }

  /** A nonzero index: both routers look the index up and agree on the
      endpoint; when it is missing they raise the same error kind for the same
      index, the multicast one carrying the group's node ids and the broadcast
      one only the broadcast flag. */
  lemma NonzeroIndexAgrees(group: VirtualNode, nodeIDs: seq<int>, broadcast: VirtualNode, index: int)
    requires index != 0 && group.getEndpoint(index) == broadcast.getEndpoint(index)
    ensures MulticastGroup.GetVirtualEndpoint(group, nodeIDs, Some(index)).Ok? == BroadcastNode.GetVirtualEndpoint(broadcast, index).Ok?
    ensures MulticastGroup.GetVirtualEndpoint(group, nodeIDs, Some(index)).Ok? ==>
      MulticastGroup.GetVirtualEndpoint(group, nodeIDs, Some(index)).value == BroadcastNode.GetVirtualEndpoint(broadcast, index).value
    ensures MulticastGroup.GetVirtualEndpoint(group, nodeIDs, Some(index)).Err? ==>
      && MulticastGroup.GetVirtualEndpoint(group, nodeIDs, Some(index)).error == VirtualEndpointNotFound(index, Some(nodeIDs), None)
      && BroadcastNode.GetVirtualEndpoint(broadcast, index).error == VirtualEndpointNotFound(index, None, Some(true))
  {
  }
}
