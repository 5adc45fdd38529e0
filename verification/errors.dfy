/**
 * The mapper's error taxonomy and the text each error displays as.
 *
 * Errors of other crates (MQTT client, I/O, JSON, time, ...) are opaque: the
 * model only knows the text they display.  A `#[error(transparent)]` variant
 * displays exactly its wrapped error; a formatted variant renders its
 * `#[error("...")]` template with its fields.
 */
module Errors {
  import opened Outcomes
  import opened Text

  /** An error of a crate outside the mapper, known only by the text it displays. */
  datatype ForeignError = ForeignError(text: string)

  /** Infrastructure errors; every variant is transparent. */
  datatype MapperError =
    | FromMqttClient(source: ForeignError)
    | FromTEdgeConfig(source: ForeignError)
    | FromConfigSetting(source: ForeignError)
    | FromNotifyFs(source: ForeignError)
    | FromStdIo(source: ForeignError)
  {
    function Display(): (r: string)
      ensures r == source.text
    {
      match this
      case FromMqttClient(e) => e.text
      case FromTEdgeConfig(e) => e.text
      case FromConfigSetting(e) => e.text
      case FromNotifyFs(e) => e.text
      case FromStdIo(e) => e.text
    }
  }

  const ExecuteFailedTemplate: seq<string> :=
    ["Operation execution failed: ", ". Command: ", ". Operation name: ", ""]
  const ReadDirErrorHead: string := "Failed to read the child device operations in directory: "
  const JsonCustomOperationHandlerErrorTemplate: seq<string> :=
    ["Error occurred while preprocessing custom operation handler ", ". Reason: ", ""]

  /** A template with one argument at its end. */
  function PrefixedText(head: string, arg: string): (r: string)
    ensures StartsWith(r, head) && EndsWith(r, arg)
    ensures ConsistsOf(r, head, arg)
  {
    ConcatConsistsOf(head, arg);
    head + arg
  }

  /** The text of `ExecuteFailed`: message, command and operation name, each after its label. */
  function ExecuteFailedText(msg: string, cmd: string, name: string): (r: string)
    ensures StartsWith(r, "Operation execution failed: ") && InOrder(r, [msg, cmd, name])
    ensures ConsistsOf(r, "Operation execution failed: " + msg + ". Command: " + cmd, ". Operation name: " + name)
  {
    FormatEmbedsArgs(ExecuteFailedTemplate, [msg, cmd, name]);
    FormatThreeArgs(ExecuteFailedTemplate, [msg, cmd, name]);
    ConcatConsistsOf(ExecuteFailedTemplate[0] + msg + ExecuteFailedTemplate[1] + cmd, ExecuteFailedTemplate[2] + name);
    Format(ExecuteFailedTemplate, [msg, cmd, name])
  }

  /** The text of `JsonCustomOperationHandlerError`: the operation, then the reason after its label. */
  function CustomHandlerText(op: string, msg: string): (r: string)
    ensures StartsWith(r, "Error occurred while preprocessing custom operation handler ") && InOrder(r, [op, msg])
    ensures ConsistsOf(r, "Error occurred while preprocessing custom operation handler " + op, ". Reason: " + msg)
  {
    var t := JsonCustomOperationHandlerErrorTemplate;
    FormatEmbedsArgs(t, [op, msg]);
    FormatTwoArgs(t, [op, msg]);
    ConcatConsistsOf(t[0] + op, t[1] + msg);
    Format(t, [op, msg])
  }

  /** Errors raised while executing Cumulocity operations. */
  datatype CumulocityMapperError =
    | FromEntityStore(source: ForeignError)
    | FromEntityCacheError(source: ForeignError)
    | InvalidTopicError(source: ForeignError)
    | InvalidThinEdgeJson(source: ForeignError)
    | FromElapsed(source: ForeignError)
    | FromMqttClient(source: ForeignError)
    | FromSmartRestSerializer(source: ForeignError)
    | FromSmartRestDeserializer(source: ForeignError)
    | FromC8yJsonOverMqttDeserializerError(source: ForeignError)
    | FromSmCumulocityMapperError(source: ForeignError)
    | FromTedgeConfig(source: ForeignError)
    | FromTimeFormat(source: ForeignError)
    | FromTimeParse(source: ForeignError)
    | FromIo(source: ForeignError)
    | FromSerde(source: ForeignError)
    | ExecuteFailed(errorMessage: string, command: string, operationName: string)
    | ReadDirError(dir: string)
    | FromOperationsError(source: ForeignError)
    | FromOperationLogs(source: ForeignError)
    | TedgeConfig(source: ForeignError)
    | FromC8YRestError(source: ForeignError)
    | ChannelError(source: ForeignError)
    | JsonCustomOperationHandlerError(operation: string, errMsg: string)
  {
    /** The variants with an `#[error("...")]` template; all others are transparent. */
    predicate IsFormatted() {
      ExecuteFailed? || ReadDirError? || JsonCustomOperationHandlerError?
    }

    function Display(): (r: string)
      ensures !IsFormatted() ==> r == source.text
      ensures ExecuteFailed? ==>
        StartsWith(r, "Operation execution failed: ") && InOrder(r, [errorMessage, command, operationName])
      ensures ReadDirError? ==>
        StartsWith(r, "Failed to read the child device operations in directory: ") && EndsWith(r, dir)
      ensures JsonCustomOperationHandlerError? ==>
        StartsWith(r, "Error occurred while preprocessing custom operation handler ") && InOrder(r, [operation, errMsg])
      ensures ExecuteFailed? ==>
        ConsistsOf(r, "Operation execution failed: " + errorMessage + ". Command: " + command, ". Operation name: " + operationName)
      ensures ReadDirError? ==> ConsistsOf(r, "Failed to read the child device operations in directory: ", dir)
      ensures JsonCustomOperationHandlerError? ==>
        ConsistsOf(r, "Error occurred while preprocessing custom operation handler " + operation, ". Reason: " + errMsg)
    {
      match this
      case ExecuteFailed(msg, cmd, name) => ExecuteFailedText(msg, cmd, name)
      case ReadDirError(d) => PrefixedText(ReadDirErrorHead, d)
      case JsonCustomOperationHandlerError(op, msg) => CustomHandlerText(op, msg)
      case _ => source.text
    }
  }

  const TranslatedSizeExceededThresholdTemplate: seq<string> :=
    ["The payload ", " received on ", " after translation is ", " greater than the threshold size of ", "."]
  const ChildDeviceNotRegisteredTemplate: seq<string> :=
    ["The given Child ID '", "' is not registered with Cumulocity. To send the events to the child device, it has to be registered first."]
  const AutoRegistrationDisabledTemplate: seq<string> :=
    ["The provided entity: ", " was not found and could not be auto-registered either, because it is disabled"]

  const OptionErrorText: string := "Error converting json option"
  const DirPathComponentErrorHead: string := "Failed to extract the child device name from file path : "
  const UnexpectedErrorHead: string := "Unexpected error: "

  /** The text of `TranslatedSizeExceededThreshold`: payload, topic and both sizes in decimal, in this order. */
  function SizeExceededText(payload: string, topic: string, actualSize: Usize, threshold: Usize): (r: string)
    ensures StartsWith(r, "The payload ")
    ensures InOrder(r, [payload, topic, Decimal(actualSize), Decimal(threshold)])
    ensures ConsistsOf(r, "The payload " + payload + " received on " + topic + " after translation is " + Decimal(actualSize),
                       " greater than the threshold size of " + Decimal(threshold) + ".")
  {
    var args := [payload, topic, Decimal(actualSize), Decimal(threshold)];
    var t := TranslatedSizeExceededThresholdTemplate;
    FormatEmbedsArgs(t, args);
    FormatFourArgs(t, args);
    ConcatConsistsOf(t[0] + payload + t[1] + topic + t[2] + Decimal(actualSize), t[3] + Decimal(threshold) + t[4]);
    Format(TranslatedSizeExceededThresholdTemplate, args)
  }

  /** The text of `ChildDeviceNotRegistered`, quoting the child id. */
  function ChildNotRegisteredText(id: string): (r: string)
    ensures StartsWith(r, "The given Child ID '") && Contains(r, id)
    ensures ConsistsOf(r, "The given Child ID '" + id,
                       "' is not registered with Cumulocity. To send the events to the child device, it has to be registered first.")
  {
    FormatEmbedsArgs(ChildDeviceNotRegisteredTemplate, [id]);
    FormatOneArg(ChildDeviceNotRegisteredTemplate, [id]);
    ConcatConsistsOf(ChildDeviceNotRegisteredTemplate[0] + id, ChildDeviceNotRegisteredTemplate[1]);
    Format(ChildDeviceNotRegisteredTemplate, [id])
  }

  /** The text of `AutoRegistrationDisabled`, naming the entity. */
  function AutoRegistrationDisabledText(entity: string): (r: string)
    ensures StartsWith(r, "The provided entity: ") && Contains(r, entity)
    ensures ConsistsOf(r, "The provided entity: " + entity,
                       " was not found and could not be auto-registered either, because it is disabled")
  {
    FormatEmbedsArgs(AutoRegistrationDisabledTemplate, [entity]);
    FormatOneArg(AutoRegistrationDisabledTemplate, [entity]);
    ConcatConsistsOf(AutoRegistrationDisabledTemplate[0] + entity, AutoRegistrationDisabledTemplate[1]);
    Format(AutoRegistrationDisabledTemplate, [entity])
  }

  /**
   * The `ConversionError` variants that only wrap an error of another crate
   * (`#[error(transparent)]`), named as in the enum.
   */
  datatype ForeignKind =
    | FromCumulocityJsonError | FromCumulocitySmartRestMapperError | FromThinEdgeJsonSerialization
    | FromThinEdgeJsonAlarmDeserialization | FromThinEdgeJsonEventDeserialization | FromThinEdgeJsonParser
    | SizeThresholdExceeded | FromMqttClient | FromOperationsError | FromSmartRestSerializerError
    | FromSmartRestDeserializerError | FromSerdeJson | FromStdIo | FromUtf8Error | FromTimeFormatError
    | FromOperationLogsError | FromC8YRestError | FileError | FromC8yAlarmError | FromEntityStoreError
    | FromEntityCacheError | InvalidExternalIdError | ChannelError

  /**
   * Errors converting one message; the domain of the per-message isolation.
   * The transparent variants wrapping a foreign error are `Foreign(kind, source)`.
   */
  datatype ConversionError =
    | FromMapper(mapper: MapperError)
    | FromCumulocityMapperError(cumulocity: CumulocityMapperError)
    | FromOptionError
    | TranslatedSizeExceededThreshold(payload: string, topic: string, actualSize: Usize, threshold: Usize)
    | ChildDeviceNotRegistered(id: string)
    | DirPathComponentError(dir: string)
    | UnexpectedError(debug: ForeignError)
    | AutoRegistrationDisabled(entity: string)
    | Foreign(kind: ForeignKind, source: ForeignError)
  {
    /** Transparent variants show the wrapped error's text; the others fill in their template. */
    function Display(): (r: string)
      ensures Foreign? ==> r == source.text
      ensures FromMapper? ==> r == mapper.Display()
      ensures FromCumulocityMapperError? ==> r == cumulocity.Display()
      ensures FromOptionError? ==> r == "Error converting json option"
      ensures TranslatedSizeExceededThreshold? ==>
        StartsWith(r, "The payload ") && InOrder(r, [payload, topic, Decimal(actualSize), Decimal(threshold)])
      ensures ChildDeviceNotRegistered? ==> StartsWith(r, "The given Child ID '") && Contains(r, id)
      ensures DirPathComponentError? ==>
        StartsWith(r, "Failed to extract the child device name from file path : ") && EndsWith(r, dir)
      ensures UnexpectedError? ==> StartsWith(r, "Unexpected error: ") && EndsWith(r, debug.text)
      ensures AutoRegistrationDisabled? ==> StartsWith(r, "The provided entity: ") && Contains(r, entity)
      ensures TranslatedSizeExceededThreshold? ==>
        ConsistsOf(r, "The payload " + payload + " received on " + topic + " after translation is " + Decimal(actualSize),
                   " greater than the threshold size of " + Decimal(threshold) + ".")
      ensures ChildDeviceNotRegistered? ==>
        ConsistsOf(r, "The given Child ID '" + id,
                   "' is not registered with Cumulocity. To send the events to the child device, it has to be registered first.")
      ensures DirPathComponentError? ==> ConsistsOf(r, "Failed to extract the child device name from file path : ", dir)
      ensures UnexpectedError? ==> ConsistsOf(r, "Unexpected error: ", debug.text)
      ensures AutoRegistrationDisabled? ==>
        ConsistsOf(r, "The provided entity: " + entity, " was not found and could not be auto-registered either, because it is disabled")
    {
      match this
      case FromMapper(e) => e.Display()
      case FromCumulocityMapperError(e) => e.Display()
      case FromOptionError => OptionErrorText
      case TranslatedSizeExceededThreshold(p, t, actual, limit) => SizeExceededText(p, t, actual, limit)
      case ChildDeviceNotRegistered(i) => ChildNotRegisteredText(i)
      case DirPathComponentError(d) => PrefixedText(DirPathComponentErrorHead, d)
      case UnexpectedError(e) => PrefixedText(UnexpectedErrorHead, e.text)
      case AutoRegistrationDisabled(ent) => AutoRegistrationDisabledText(ent)
      case Foreign(_, e) => e.text
    }
  }

  const MessageConversionErrorPrefix: string := "Failed to convert a message on topic '"
  const MessageConversionErrorSeparator: string := "': "

  /** A conversion error annotated with the topic of the message that failed. */
  datatype MessageConversionError = MessageConversionError(error: ConversionError, topic: string) {
    function Display(): (r: string)
      ensures StartsWith(r, MessageConversionErrorPrefix)
      ensures EndsWith(r, error.Display())
      ensures InOrder(r, [topic, error.Display()])
      ensures ConsistsOf(r, MessageConversionErrorPrefix + topic, MessageConversionErrorSeparator + error.Display())
    {
      var inner := error.Display();
      ConcatConsistsOf(MessageConversionErrorPrefix + topic, MessageConversionErrorSeparator + inner);
      var pieces := [MessageConversionErrorPrefix, MessageConversionErrorSeparator, ""];
      FormatEmbedsArgs(pieces, [topic, inner]);
      FormatTwoArgs(pieces, [topic, inner]);
      assert Format(pieces, [topic, inner]) == MessageConversionErrorPrefix + topic + MessageConversionErrorSeparator + inner;
      MessageConversionErrorPrefix + topic + MessageConversionErrorSeparator + inner
    }
  }

  /**
   * Reads the topic and the inner error text back out of a displayed
   * `MessageConversionError`: the topic ends at the first quote after the prefix.
   */
  function ParseMessageConversionError(s: string): (r: Option<(string, string)>) {
    if StartsWith(s, MessageConversionErrorPrefix) then
      var rest := s[|MessageConversionErrorPrefix|..];
      match IndexOf(rest, '\'')
      case Some(k) =>
        if StartsWith(rest[k..], MessageConversionErrorSeparator) then Some((rest[..k], rest[k + 3..])) else None
      case None => None
    else
      None
  }

  /** Nothing is lost in the annotation: topic and inner text come back out, as long as the topic has no quote. */
  lemma MessageConversionErrorRoundTrip(m: MessageConversionError)
    requires '\'' !in m.topic
    ensures ParseMessageConversionError(m.Display()) == Some((m.topic, m.error.Display()))
  {
    var inner := m.error.Display();
    assert m.Display() == MessageConversionErrorPrefix + m.topic + MessageConversionErrorSeparator + inner;
    ParseAnnotated(m.topic, inner);
  }

  lemma ParseAnnotated(topic: string, inner: string)
    requires '\'' !in topic
    ensures ParseMessageConversionError(MessageConversionErrorPrefix + topic + MessageConversionErrorSeparator + inner)
         == Some((topic, inner))
  {
    var tail := MessageConversionErrorSeparator + inner;
    var rest := topic + tail;
    assert MessageConversionErrorPrefix + topic + MessageConversionErrorSeparator + inner == MessageConversionErrorPrefix + rest;
    ConcatConsistsOf(MessageConversionErrorPrefix, rest);
    ConcatConsistsOf(topic, tail);
    ConcatConsistsOf(MessageConversionErrorSeparator, inner);
    IndexAfterQuoteFreePrefix(topic, tail);
    assert rest[|topic| + 3..] == inner;
  }

  lemma IndexAfterQuoteFreePrefix(a: string, b: string)
    requires '\'' !in a && |b| > 0 && b[0] == '\''
    ensures IndexOf(a + b, '\'') == Some(|a|)
  {
    assert (a + b)[|a|] == '\'';
  }

  /**
   * A timeout inside an operation, wrapped as a `CumulocityMapperError`, then as
   * a `ConversionError`, then annotated with its topic, still ends with the
   * timeout's own text, whatever the topic; when the topic has no quote, the
   * topic and the timeout text both parse back out.
   */
  lemma ElapsedThroughLayers(elapsed: ForeignError, topic: string)
    ensures
      var m := MessageConversionError(FromCumulocityMapperError(CumulocityMapperError.FromElapsed(elapsed)), topic);
      && m.error.Display() == elapsed.text
      && EndsWith(m.Display(), elapsed.text)
      && ('\'' !in topic ==> ParseMessageConversionError(m.Display()) == Some((topic, elapsed.text)))
  {
    var m := MessageConversionError(FromCumulocityMapperError(CumulocityMapperError.FromElapsed(elapsed)), topic);
    if '\'' !in topic {
      MessageConversionErrorRoundTrip(m);
    }
  }
}
