/** The event forwarder: it listens to the driver, its controller and every
    node, and turns each native event into an outgoing envelope. Listener
    registration is modelled by counts: how many times the driver and
    controller handlers were registered, and how many sets of node handlers
    each node object has. An event fires every registered handler once. */
module Forward {
  import opened Wrappers
  import opened Messages

  /** A node of the network, as its events present it: `emitter` is the
      identity of the node object, on which node handlers are registered (a
      node that leaves and a node that joins later under the same id are two
      objects); `details` stands for everything the node dumper reads. */
  datatype ZWaveNode = ZWaveNode(emitter: int, nodeId: int, ready: bool, details: Json)

  /** The state dumpers the forwarder uses. */
  datatype NodeDumpers = NodeDumpers(
    dumpNode: ZWaveNode -> Json,
    dumpValue: (ZWaveNode, Json) -> Json)

  /** `n` copies of `e`. */
  function Repeat<T>(e: T, n: nat): (r: seq<T>)
    ensures |r| == n
    ensures forall i :: 0 <= i < |r| ==> r[i] == e
  {
    if n == 0 then [] else Repeat(e, n - 1) + [e]
  }

  /** The node objects of `nodes`, with repetitions. */
  function Emitters(nodes: seq<ZWaveNode>): (r: multiset<int>)
    ensures |r| == |nodes|
  {
    if |nodes| == 0 then multiset{}
    else Emitters(nodes[..|nodes| - 1]) + multiset{nodes[|nodes| - 1].emitter}
  }

  /** Extending a prefix of `nodes` by one node adds that node's object. */
  lemma EmittersOfLongerPrefix(nodes: seq<ZWaveNode>, i: int)
    requires 0 <= i < |nodes|
    ensures Emitters(nodes[..i + 1]) == Emitters(nodes[..i]) + multiset{nodes[i].emitter}
  {
    assert nodes[..i + 1][..i] == nodes[..i];
  }

  /** Every node of `nodes` has its object among `Emitters(nodes)`. */
  lemma {:induction false} EmitterOfEveryNode(nodes: seq<ZWaveNode>, i: int)
    requires 0 <= i < |nodes|
    ensures nodes[i].emitter in Emitters(nodes)
    decreases |nodes|
  {
    if i < |nodes| - 1 {
      EmitterOfEveryNode(nodes[..|nodes| - 1], i);
    }
  }

  // ----- node events -----

  /** The node events whose payload is a fresh dump of the node. */
  datatype LifecycleEvent = InterviewCompleted | Ready

  /** The node events whose payload is the node's previous status. */
  datatype StatusEvent = WakeUp | Sleep | Dead | Alive

  /** The node events forwarded with their arguments whether or not the node is ready. */
  datatype ArgsEvent = ValueRemoved | InterviewFailed

  /** The node events forwarded with their arguments only once the node is ready. */
  datatype ValueEvent = ValueUpdated | ValueAdded

  /** A native node event with its arguments (the changed node aside). */
  datatype NodeEvent =
    | Lifecycle(lifecycle: LifecycleEvent)
    | StatusChange(statusEvent: StatusEvent, oldStatus: Json)
    | WithArgs(argsEvent: ArgsEvent, args: Json)
    | ValueChange(valueEvent: ValueEvent, valueArgs: Json)
    | ValueNotification(notificationArgs: Json)
    | Notification(notificationLabel: Json, parameters: Json)
    | FirmwareUpdateProgress(sentFragments: Json, totalFragments: Json)
    | FirmwareUpdateFinished(status: Json, waitTime: Json)
  {
    /** The event's name, which is also the name of the envelope. */
    function Name(): string {
      match this
      case Lifecycle(InterviewCompleted) => "interview completed"
      case Lifecycle(Ready) => "ready"
      case StatusChange(WakeUp, _) => "wake up"
      case StatusChange(Sleep, _) => "sleep"
      case StatusChange(Dead, _) => "dead"
      case StatusChange(Alive, _) => "alive"
      case WithArgs(ValueRemoved, _) => "value removed"
      case WithArgs(InterviewFailed, _) => "interview failed"
      case ValueChange(ValueUpdated, _) => "value updated"
      case ValueChange(ValueAdded, _) => "value added"
      case ValueNotification(_) => "value notification"
      case Notification(_, _) => "notification"
      case FirmwareUpdateProgress(_, _) => "firmware update progress"
      case FirmwareUpdateFinished(_, _) => "firmware update finished"
    }

    /** The payload keys the envelope of the event carries besides the node id. */
    function PayloadKeys(): set<string> {
      match this
      case Lifecycle(_) => {"nodeState"}
      case StatusChange(_, _) => {"oldStatus"}
      case WithArgs(_, _) => {"args"}
      case ValueChange(_, _) => {"args"}
      case ValueNotification(_) => {"valueState"}
      case Notification(_, _) => {"notificationLabel", "parameters"}
      case FirmwareUpdateProgress(_, _) => {"sentFragments", "totalFragments"}
      case FirmwareUpdateFinished(_, _) => {"status", "waitTime"}
    }
  }

  /** The envelope of a node event: source "node", the event name, the node
      id, and then the payload `extra`, whose keys win over the node id. */
  function NotifyNode(node: ZWaveNode, event: string, extra: map<string, Json>): (r: OutgoingEvent)
    ensures r.source == "node" && r.event == event
    ensures r.fields.Keys == extra.Keys + {"nodeId"}
    ensures forall k :: k in extra ==> r.fields[k] == extra[k]
    ensures "nodeId" !in extra ==> r.fields["nodeId"] == JNumber(node.nodeId)
  {
    OutgoingEvent("node", event, map["nodeId" := JNumber(node.nodeId)] + extra)
  }

  /** The payload of a node event's envelope. */
  function Payload(dumpers: NodeDumpers, node: ZWaveNode, event: NodeEvent): (r: map<string, Json>)
    ensures r.Keys == event.PayloadKeys()
  {
    match event
    case Lifecycle(_) => map["nodeState" := dumpers.dumpNode(node)]
    case StatusChange(_, oldStatus) => map["oldStatus" := oldStatus]
    case WithArgs(_, args) => map["args" := args]
    case ValueChange(_, args) => map["args" := args]
    case ValueNotification(args) => map["valueState" := dumpers.dumpValue(node, args)]
    case Notification(notificationLabel, parameters) => map["notificationLabel" := notificationLabel, "parameters" := parameters]
    case FirmwareUpdateProgress(sent, total) => map["sentFragments" := sent, "totalFragments" := total]
    case FirmwareUpdateFinished(status, waitTime) => map["status" := status, "waitTime" := waitTime]
  }

  /** What one node handler forwards for `event` of `node`: nothing for a
      value update or addition on a node that is not ready, the event's
      envelope otherwise. */
  function NodeEventEnvelope(dumpers: NodeDumpers, node: ZWaveNode, event: NodeEvent): (r: Option<OutgoingEvent>)
    ensures r.None? <==> event.ValueChange? && !node.ready
    ensures r.Some? ==> r.value.source == "node" && r.value.event == event.Name()
    ensures r.Some? ==> r.value.fields.Keys == event.PayloadKeys() + {"nodeId"}
    ensures r.Some? ==> r.value.fields["nodeId"] == JNumber(node.nodeId)
  {
    if event.ValueChange? && !node.ready then None
    else Some(NotifyNode(node, event.Name(), Payload(dumpers, node, event)))
  }

  /** What a forwarded node envelope carries: the event's own arguments,
      unchanged, or a dump of the changed node or value. */
  lemma EnvelopeCarriesArguments(dumpers: NodeDumpers, node: ZWaveNode, event: NodeEvent)
    requires !(event.ValueChange? && !node.ready)
    ensures NodeEventEnvelope(dumpers, node, event).Some?
    ensures var f := NodeEventEnvelope(dumpers, node, event).value.fields;
      match event
      case Lifecycle(_) => "nodeState" in f && f["nodeState"] == dumpers.dumpNode(node)
      case StatusChange(_, oldStatus) => "oldStatus" in f && f["oldStatus"] == oldStatus
      case WithArgs(_, args) => "args" in f && f["args"] == args
      case ValueChange(_, args) => "args" in f && f["args"] == args
      case ValueNotification(args) => "valueState" in f && f["valueState"] == dumpers.dumpValue(node, args)
      case Notification(l, p) =>
        "notificationLabel" in f && "parameters" in f && f["notificationLabel"] == l && f["parameters"] == p
      case FirmwareUpdateProgress(sent, total) =>
        "sentFragments" in f && "totalFragments" in f && f["sentFragments"] == sent && f["totalFragments"] == total
      case FirmwareUpdateFinished(status, waitTime) =>
        "status" in f && "waitTime" in f && f["status"] == status && f["waitTime"] == waitTime
  {
  }

  // ----- controller and driver events -----

  /** The controller events forwarded with no payload. */
  datatype PlainControllerEvent = InclusionFailed | ExclusionFailed | ExclusionStarted | InclusionStopped | ExclusionStopped

  /** A native controller event with its arguments. */
  datatype ControllerEvent =
    | NodeAdded(addedNode: ZWaveNode)
    | Plain(plain: PlainControllerEvent)
    | InclusionStarted(secure: bool)
    | NodeRemoved(removedNode: ZWaveNode)
    | HealNetworkProgress(progress: Json)
    | HealNetworkDone(result: Json)
  {
    function Name(): string {
      match this
      case NodeAdded(_) => "node added"
      case Plain(InclusionFailed) => "inclusion failed"
      case Plain(ExclusionFailed) => "exclusion failed"
      case Plain(ExclusionStarted) => "exclusion started"
      case Plain(InclusionStopped) => "inclusion stopped"
      case Plain(ExclusionStopped) => "exclusion stopped"
      case InclusionStarted(_) => "inclusion started"
      case NodeRemoved(_) => "node removed"
      case HealNetworkProgress(_) => "heal network progress"
      case HealNetworkDone(_) => "heal network done"
    }
  }

  /** The envelope of a controller event. */
  function ControllerEventEnvelope(dumpers: NodeDumpers, event: ControllerEvent): (r: OutgoingEvent)
    ensures r.source == "controller" && r.event == event.Name()
    ensures |r.fields| == if event.Plain? then 0 else 1
    // a node that joins or leaves is carried as a dump of the node
    ensures event.NodeAdded? ==> r.fields == map["node" := dumpers.dumpNode(event.addedNode)]
    ensures event.NodeRemoved? ==> r.fields == map["node" := dumpers.dumpNode(event.removedNode)]
    // every other argument is carried unchanged under its own name
    ensures event.InclusionStarted? ==> r.fields == map["secure" := JBool(event.secure)]
    ensures event.HealNetworkProgress? ==> r.fields == map["progress" := event.progress]
    ensures event.HealNetworkDone? ==> r.fields == map["result" := event.result]
    ensures event.Plain? ==> r.fields == map[]
  {
    var fields := match event
      case NodeAdded(node) => map["node" := dumpers.dumpNode(node)]
      case Plain(_) => map[]
      case InclusionStarted(secure) => map["secure" := JBool(secure)]
      case NodeRemoved(node) => map["node" := dumpers.dumpNode(node)]
      case HealNetworkProgress(progress) => map["progress" := progress]
      case HealNetworkDone(result) => map["result" := result];
    OutgoingEvent("controller", event.Name(), fields)
  }

  /** The envelope forwarded once the driver reports all nodes ready. */
  const AllNodesReadyEnvelope := OutgoingEvent("driver", "all nodes ready", map[])

  /** The forwarder, with the handlers it registered and what it forwarded. */
  class EventForwarder {
    const dumpers: NodeDumpers
    /** Handlers registered, once each, for the driver's "all nodes ready". */
    var allNodesReadyListeners: nat
    /** How many times the controller handlers were registered. */
    var controllerListeners: nat
    /** How many sets of node handlers each node object has. */
    var subscriptions: multiset<int>
    /** Every envelope forwarded, oldest first. */
    var forwarded: seq<OutgoingEvent>

    constructor (dumpers: NodeDumpers)
      ensures this.dumpers == dumpers
      ensures allNodesReadyListeners == 0 && controllerListeners == 0
      ensures subscriptions == multiset{} && forwarded == []
    {
      this.dumpers := dumpers;
      allNodesReadyListeners := 0;
      controllerListeners := 0;
      subscriptions := multiset{};
      forwarded := [];
    }

    /** Registers the node handlers of `node`. */
    method SetupNode(node: ZWaveNode)
      modifies this`subscriptions
      ensures subscriptions == old(subscriptions) + multiset{node.emitter}
    {
      subscriptions := subscriptions + multiset{node.emitter};
    }

    /** Registers the driver and controller handlers, and the node handlers
        of every node the controller knows; nothing is forwarded yet. */
    method Start(nodes: seq<ZWaveNode>)
      modifies this`allNodesReadyListeners, this`controllerListeners, this`subscriptions
      ensures allNodesReadyListeners == old(allNodesReadyListeners) + 1
      ensures controllerListeners == old(controllerListeners) + 1
      ensures subscriptions == old(subscriptions) + Emitters(nodes)
    {
      allNodesReadyListeners := allNodesReadyListeners + 1;
      var i := 0;
      while i < |nodes|
        invariant 0 <= i <= |nodes|
        invariant allNodesReadyListeners == old(allNodesReadyListeners) + 1
        invariant controllerListeners == old(controllerListeners)
        invariant subscriptions == old(subscriptions) + Emitters(nodes[..i])
      {
        EmittersOfLongerPrefix(nodes, i);
        SetupNode(nodes[i]);
        i := i + 1;
      }
      assert nodes[..i] == nodes;
      controllerListeners := controllerListeners + 1;
    }

    /** The driver reports all nodes ready: each registered handler forwards
        the envelope once and is dropped. */
    method OnAllNodesReady()
      modifies this`allNodesReadyListeners, this`forwarded
      ensures forwarded == old(forwarded) + Repeat(AllNodesReadyEnvelope, old(allNodesReadyListeners))
      ensures allNodesReadyListeners == 0
    {
      forwarded := forwarded + Repeat(AllNodesReadyEnvelope, allNodesReadyListeners);
      allNodesReadyListeners := 0;
    }

    /** A controller event: each registered controller handler forwards its
        envelope; for an added node, each handler then registers the node
        handlers of the new node. */
    method OnControllerEvent(event: ControllerEvent)
      modifies this`forwarded, this`subscriptions
      ensures forwarded == old(forwarded) + Repeat(ControllerEventEnvelope(dumpers, event), controllerListeners)
      ensures event.NodeAdded? ==>
        subscriptions == old(subscriptions)[event.addedNode.emitter := old(subscriptions)[event.addedNode.emitter] + controllerListeners]
      ensures !event.NodeAdded? ==> subscriptions == old(subscriptions)
    {
      forwarded := forwarded + Repeat(ControllerEventEnvelope(dumpers, event), controllerListeners);
      if event.NodeAdded? {
        var id := event.addedNode.emitter;
        subscriptions := subscriptions[id := subscriptions[id] + controllerListeners];
      }
    }

    /** A node event of `node`: each set of node handlers registered for the
        node's id forwards what `NodeEventEnvelope` gives. */
    method OnNodeEvent(node: ZWaveNode, event: NodeEvent)
      modifies this`forwarded
      ensures NodeEventEnvelope(dumpers, node, event).None? ==> forwarded == old(forwarded)
      ensures NodeEventEnvelope(dumpers, node, event).Some? ==>
        forwarded == old(forwarded) + Repeat(NodeEventEnvelope(dumpers, node, event).value, subscriptions[node.emitter])
    {
      match NodeEventEnvelope(dumpers, node, event)
      case None =>
      case Some(envelope) =>
        forwarded := forwarded + Repeat(envelope, subscriptions[node.emitter]);
    }
  }
}
