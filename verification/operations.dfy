/**
 * `OperationHandler::handle_operation`: the routing of an operation to its
 * handler and the handling of the handler's result.
 *
 * One invocation is modelled as a pure function producing the ordered trace of
 * what the spawned task does: upload the operation log, publish MQTT messages,
 * and log errors.  The handlers themselves and the log upload are external:
 * they are parameters returning the outcome they would produce.
 */
module Operations {
  import opened Outcomes
  import opened Errors

  datatype MqttMessage = MqttMessage(topic: string, payload: string)

  /** The operation kinds the mapper handles after the local command has changed state. */
  datatype OperationType =
    | Health
    | Custom(name: string)
    | Restart
    | SoftwareList
    | SoftwareUpdate
    | LogUpload
    | ConfigSnapshot
    | ConfigUpdate
    | FirmwareUpdate

  /** The entity an operation targets, captured once before the task is spawned. */
  datatype Entity = Entity(topicId: string, externalId: string, smartrestPublishTopic: string)

  /** The command a handler hands back when the operation's log has to be uploaded; its content is opaque here. */
  datatype Command = Command(state: string)

  /** The per-kind handler routines of `OperationHandler`. */
  datatype Handler =
    | PublishRestartOperationStatus
    | PublishSoftwareList
    | PublishSoftwareUpdateStatus
    | HandleLogUploadStateChange
    | HandleConfigSnapshotStateChange
    | HandleConfigUpdateStateChange
    | HandleFirmwareUpdateStateChange

  /** What a handler returns: the messages to publish and, optionally, a command whose log to upload. */
  type HandlerResult = Result<(seq<MqttMessage>, Option<Command>), ConversionError>

  /** The handler an operation kind is routed to; health and custom operations have none. */
  function HandlerFor(op: OperationType): (h: Option<Handler>)
    ensures h.None? <==> (op.Health? || op.Custom?)
  {
    match op
    case Health => None
    case Custom(_) => None
    case Restart => Some(PublishRestartOperationStatus)
    case SoftwareList => Some(PublishSoftwareList)
    case SoftwareUpdate => Some(PublishSoftwareUpdateStatus)
    case LogUpload => Some(HandleLogUploadStateChange)
    case ConfigSnapshot => Some(HandleConfigSnapshotStateChange)
    case ConfigUpdate => Some(HandleConfigUpdateStateChange)
    case FirmwareUpdate => Some(HandleFirmwareUpdateStateChange)
  }

  /** The operation kind each handler serves. */
  function KindOf(h: Handler): (op: OperationType)
    ensures HandlerFor(op) == Some(h)
  {
    match h
    case PublishRestartOperationStatus => Restart
    case PublishSoftwareList => SoftwareList
    case PublishSoftwareUpdateStatus => SoftwareUpdate
    case HandleLogUploadStateChange => LogUpload
    case HandleConfigSnapshotStateChange => ConfigSnapshot
    case HandleConfigUpdateStateChange => ConfigUpdate
    case HandleFirmwareUpdateStateChange => FirmwareUpdate
  }

  /** Routing is one-to-one: every handler serves exactly one kind, and that kind only. */
  lemma RoutingIsOneToOne(op: OperationType, h: Handler)
    ensures HandlerFor(op) == Some(h) <==> op == KindOf(h)
  {
  }

  /** Runs the routing step: a trivial success for health and custom operations, the routed handler otherwise. */
  function Route(op: OperationType, entity: Entity, cmdId: string, message: MqttMessage,
                 run: (Handler, Entity, string, MqttMessage) -> HandlerResult): (r: HandlerResult)
    ensures (op.Health? || op.Custom?) ==> r == Ok(([], None))
    ensures !(op.Health? || op.Custom?) ==> r == run(HandlerFor(op).value, entity, cmdId, message)
  {
    match HandlerFor(op)
    case None => Ok(([], None))
    case Some(h) => run(h, entity, cmdId, message)
  }

  /** What the spawned task does, in order. */
  datatype Action =
    | UploadLog(externalId: string, cmdId: string, operation: OperationType, command: Command)
    | Publish(message: MqttMessage)
    | LogError(text: string)

  type Trace = seq<Action>

  const UploadFailurePrefix: string := "failed to upload operation logs: "

  function Publishes(messages: seq<MqttMessage>): (t: Trace)
    ensures |t| == |messages|
    ensures forall i :: 0 <= i < |t| ==> t[i] == Publish(messages[i])
  {
    seq(|messages|, i requires 0 <= i < |messages| => Publish(messages[i]))
  }

  /** The messages published by a trace, in order. */
  function Published(t: Trace): (msgs: seq<MqttMessage>)
    decreases |t|
  {
    if |t| == 0 then []
    else if t[0].Publish? then [t[0].message] + Published(t[1..])
    else Published(t[1..])
  }

  /** Whether a trace uploads a log at some point. */
  predicate Uploads(t: Trace) {
    exists i :: 0 <= i < |t| && t[i].UploadLog?
  }

  /** A handler result whose messages wait for the operation log: a command came back and there is something to publish. */
  predicate CarriesLog(res: HandlerResult) {
    res.Ok? && res.value.1.Some? && |res.value.0| > 0
  }

  /** The messages a handler result asks to publish: its messages on success, none on error. */
  function ResultMessages(res: HandlerResult): (msgs: seq<MqttMessage>) {
    if res.Ok? then res.value.0 else []
  }

  /** The result-handling step, given the handler's result and the outcome of the log upload. */
  function HandleResult(op: OperationType, entity: Entity, cmdId: string, res: HandlerResult,
                        upload: (string, string, OperationType, Command) -> Result<(), string>): (t: Trace)
    ensures Published(t) == ResultMessages(res)
    ensures Uploads(t) <==> CarriesLog(res)
    ensures forall i, j :: 0 <= i < |t| && 0 <= j < |t| && t[i].UploadLog? && t[j].Publish? ==> i < j
  {
    match res
    case Err(e) =>
      PublishedSkipsOthers([LogError(e.Display())], []);
      [LogError(e.Display())]
    case Ok((messages, command)) =>
      PublishedPublishes(messages);
      if command.Some? && |messages| > 0 then
        var uploaded := upload(entity.externalId, cmdId, op, command.value);
        var head := [UploadLog(entity.externalId, cmdId, op, command.value)]
          + (if uploaded.Err? then [LogError(UploadFailurePrefix + uploaded.error)] else []);
        PublishedSkipsOthers(head, Publishes(messages));
        assert head[0].UploadLog?;
        head + Publishes(messages)
      else
        Publishes(messages)
  }

  /** `handle_operation` for one operation instance: route, run the handler, handle its result. */
  function HandleOperation(op: OperationType, entity: Entity, cmdId: string, message: MqttMessage,
                           run: (Handler, Entity, string, MqttMessage) -> HandlerResult,
                           upload: (string, string, OperationType, Command) -> Result<(), string>): (t: Trace)
    ensures Published(t) == ResultMessages(Route(op, entity, cmdId, message, run))
    ensures Uploads(t) <==> CarriesLog(Route(op, entity, cmdId, message, run))
    ensures forall i, j :: 0 <= i < |t| && 0 <= j < |t| && t[i].UploadLog? && t[j].Publish? ==> i < j
  {
    HandleResult(op, entity, cmdId, Route(op, entity, cmdId, message, run), upload)
  }

  lemma {:induction false} PublishedPublishes(messages: seq<MqttMessage>)
    ensures Published(Publishes(messages)) == messages
    ensures !Uploads(Publishes(messages))
    decreases |messages|
  {
    if |messages| > 0 {
      PublishedPublishes(messages[1..]);
      assert Publishes(messages)[1..] == Publishes(messages[1..]);
    }
  }

  lemma {:induction false} PublishedSkipsOthers(head: Trace, rest: Trace)
    requires forall i :: 0 <= i < |head| ==> !head[i].Publish?
    ensures Published(head + rest) == Published(rest)
    decreases |head|
  {
    if |head| > 0 {
      assert (head + rest)[0] == head[0];
      assert (head + rest)[1..] == head[1..] + rest;
      PublishedSkipsOthers(head[1..], rest);
    } else {
      assert head + rest == rest;
    }
  }
}

/** The whole-trace shapes of `handle_operation`, one per kind of handler result. */
module OperationTraces {
  import opened Outcomes
  import opened Errors
  import opened Operations

  /** Health and custom operations do nothing at this layer: no upload, no publish, no log line. */
  lemma TrivialKindsDoNothing(op: OperationType, entity: Entity, cmdId: string, message: MqttMessage,
                              run: (Handler, Entity, string, MqttMessage) -> HandlerResult,
                              upload: (string, string, OperationType, Command) -> Result<(), string>)
    requires op.Health? || op.Custom?
    ensures HandleOperation(op, entity, cmdId, message, run, upload) == []
  {
  }

  /**
   * A result carrying a command and at least one message: the log upload comes
   * first, a failed upload is logged right after it, and then every message is
   * published in the order the handler produced them.
   */
  lemma LogBearingTrace(op: OperationType, entity: Entity, cmdId: string, message: MqttMessage,
                        run: (Handler, Entity, string, MqttMessage) -> HandlerResult,
                        upload: (string, string, OperationType, Command) -> Result<(), string>,
                        messages: seq<MqttMessage>, command: Command)
    requires Route(op, entity, cmdId, message, run) == Ok((messages, Some(command)))
    requires |messages| > 0
    ensures
      var t := HandleOperation(op, entity, cmdId, message, run, upload);
      var uploaded := upload(entity.externalId, cmdId, op, command);
      && t[0] == UploadLog(entity.externalId, cmdId, op, command)
      && |t| == |messages| + (if uploaded.Ok? then 1 else 2)
      && (uploaded.Err? ==> t[1] == LogError(UploadFailurePrefix + uploaded.error))
      && t[|t| - |messages|..] == Publishes(messages)
  {
  }

  /** Whether the log upload succeeds or fails, the same messages are published in the same order. */
  lemma UploadOutcomeDoesNotChangePublishes(op: OperationType, entity: Entity, cmdId: string, message: MqttMessage,
                                            run: (Handler, Entity, string, MqttMessage) -> HandlerResult,
                                            upload1: (string, string, OperationType, Command) -> Result<(), string>,
                                            upload2: (string, string, OperationType, Command) -> Result<(), string>)
    ensures Published(HandleOperation(op, entity, cmdId, message, run, upload1))
         == Published(HandleOperation(op, entity, cmdId, message, run, upload2))
  {
  }

  /** Without a command, or with nothing to publish, the trace is exactly the publishes, in order. */
  lemma PlainResultTrace(op: OperationType, entity: Entity, cmdId: string, message: MqttMessage,
                         run: (Handler, Entity, string, MqttMessage) -> HandlerResult,
                         upload: (string, string, OperationType, Command) -> Result<(), string>,
                         messages: seq<MqttMessage>, command: Option<Command>)
    requires Route(op, entity, cmdId, message, run) == Ok((messages, command))
    requires command.None? || |messages| == 0
    ensures HandleOperation(op, entity, cmdId, message, run, upload) == Publishes(messages)
  {
  }

  /** A handler error is logged with its display text; nothing is uploaded and nothing is published. */
  lemma ErrorTrace(op: OperationType, entity: Entity, cmdId: string, message: MqttMessage,
                   run: (Handler, Entity, string, MqttMessage) -> HandlerResult,
                   upload: (string, string, OperationType, Command) -> Result<(), string>,
                   e: ConversionError)
    requires Route(op, entity, cmdId, message, run) == Err(e)
    ensures
      var t := HandleOperation(op, entity, cmdId, message, run, upload);
      t == [LogError(e.Display())] && Published(t) == [] && !Uploads(t)
  {
  }
}
