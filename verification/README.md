# Cumulocity mapper: operation result handling, config metadata and error texts

A Dafny model of the operation layer of thin-edge.io's Cumulocity mapper
(`c8y_mapper_ext`), and of the error types that layer reports through.

- **Operation result handling** (`Operations`, `OperationTraces`). The model
  covers `OperationHandler::handle_operation`. The operation kind is routed
  to its handler; `Health` and `Custom` short-circuit to `Ok(([], None))`.
  The handler's result is then turned into an ordered trace of actions:
  - `UploadLog`: the operation log is uploaded;
  - `Publish(m)`: an MQTT message is sent;
  - `LogError(text)`: an `error!` line is written.

  The per-kind handlers and the log upload are function parameters that
  return the outcome they would produce.
- **Config metadata** (`Capabilities`). The model covers
  `convert_config_metadata`:
  - The operation is registered for the entity. Registration state is a map
    from device to the strictly increasing list of its registered operation
    names, which is the canonical form of the set of names.
  - A new name is announced with `114,<all names, sorted>`. A known name is
    announced with nothing.
  - Then a `119,<types, sorted>` record is appended on the entity's SmartREST
    topic.
  - A registration failure yields `Ok([])`.
- **Test scenarios** (`ConfigMetadataScenarios`). The two config-metadata
  tests of `operations/mod.rs` are replayed on the model. They are stated
  once for any names ordered as in the tests, and then instantiated with
  the tests' own device, topics, operation names and config types.
- **Upload outcome → SmartREST status** (`SmartRestResponse`). The model
  covers `get_smartrest_response_for_upload_result`, with the SmartREST
  record kept abstract.
- **Error taxonomy** (`Errors`). `MapperError`, `CumulocityMapperError`,
  `ConversionError` and `MessageConversionError` each have a `Display` that
  follows their `#[error(...)]` attributes:
  - transparent variants show the wrapped error's text;
  - formatted variants fill in their template.

  Foreign error types (io, serde, MQTT, …) are opaque texts.

Supporting modules:
- `StringOrder` holds Rust's `String` ordering (lexicographic by character) and a sort that is proved to be a permutation. It also proves that a sorted permutation is unique.
- `Text` holds `join`/split, the decimal rendering of `usize`, and `format!`-style templates.
- `Outcomes` holds `Option`/`Result`.

## Model

| member | source | states |
|---|---|---|
| Operations.HandlerFor | crates/extensions/c8y_mapper_ext/src/operations/mod.rs:100-138 | exactly `Health` and `Custom` have no handler; every other kind is routed to one |
| Operations.KindOf | crates/extensions/c8y_mapper_ext/src/operations/mod.rs:103-137 | every handler is the one routed to from its kind |
| Operations.RoutingIsOneToOne | crates/extensions/c8y_mapper_ext/src/operations/mod.rs:100-138 | a kind is routed to a handler if and only if it is that handler's kind |
| Operations.Route | crates/extensions/c8y_mapper_ext/src/operations/mod.rs:100-138 | health and custom operations yield `Ok(([], None))` without running any handler; every other kind yields what its handler returns |
| Operations.HandleResult | crates/extensions/c8y_mapper_ext/src/operations/mod.rs:140-161 | the messages published are exactly the handler's messages in order (none on error); a log is uploaded iff a command came back with at least one message; every upload precedes every publish |
| Operations.HandleOperation | crates/extensions/c8y_mapper_ext/src/operations/mod.rs:90-163 | the same three promises for a whole invocation, stated over the routed handler's result |
| Operations.PublishedPublishes | crates/extensions/c8y_mapper_ext/src/operations/mod.rs:151-158 | sending a list of messages one by one publishes exactly that list and uploads nothing |
| OperationTraces.TrivialKindsDoNothing | crates/extensions/c8y_mapper_ext/src/operations/mod.rs:101 | a health or custom operation produces an empty trace: no upload, no publish, no log line |
| OperationTraces.LogBearingTrace | crates/extensions/c8y_mapper_ext/src/operations/mod.rs:142-154 | with a command and at least one message, the trace starts with the upload; a failed upload is logged right after it with its text; the trace ends with all messages published in order |
| OperationTraces.UploadOutcomeDoesNotChangePublishes | crates/extensions/c8y_mapper_ext/src/operations/mod.rs:144-153 | the published sequence is the same whatever the log upload returns |
| OperationTraces.PlainResultTrace | crates/extensions/c8y_mapper_ext/src/operations/mod.rs:155-159 | without a command, or with no messages, the trace is exactly the publishes of the messages in order |
| OperationTraces.ErrorTrace | crates/extensions/c8y_mapper_ext/src/operations/mod.rs:160 | a handler error only logs its display text; nothing is uploaded or published |
| Capabilities.RegisterOperation | crates/extensions/c8y_mapper_ext/src/operations/mod.rs:186-191 | fails iff the marker step fails, with its error; the registered names grow by exactly the new name, other devices unchanged; a known name announces nothing; a new name announces `114,` followed by the full sorted listing |
| Capabilities.ConvertConfigMetadata | crates/extensions/c8y_mapper_ext/src/operations/mod.rs:178-203 | a parse error is returned unchanged; a registration failure gives `Ok([])` with the state untouched; otherwise the registrar's messages are followed by the `119` record on the entity's SmartREST topic, or the topic lookup error is returned |
| Capabilities.SupportedConfigTypesPayload | crates/extensions/c8y_mapper_ext/src/operations/mod.rs:195-198 | the payload starts `119,` for every list of types, and is exactly `119,` when no type was received |
| Capabilities.OneSupportedConfigTypesRecord | crates/extensions/c8y_mapper_ext/src/operations/mod.rs:194-202 | a successful conversion contains exactly one `119` record, and it is the last message |
| Capabilities.SupportedConfigTypesOrderIndependent | crates/extensions/c8y_mapper_ext/src/operations/mod.rs:195-198 | the `119` payload depends only on the multiset of types, not on their order |
| Capabilities.SupportedConfigTypesListsTypes | crates/extensions/c8y_mapper_ext/src/operations/mod.rs:195-198 | the payload always starts `119,`; an empty list gives exactly `119,`; for a non-empty list of comma-free types, split back at the commas it lists the received types sorted, each as often as received |
| Capabilities.AnnouncementListsRegisteredNames | crates/extensions/c8y_mapper_ext/src/operations/mod.rs:280-290 | split back, a `114` announcement lists every name registered for the device, strictly increasing, the new one included |
| Capabilities.RegisterIdempotent | crates/extensions/c8y_mapper_ext/src/operations/mod.rs:340-356 | registering the same name again announces nothing and leaves the state unchanged |
| Capabilities.RegistrationOrderIrrelevant | crates/extensions/c8y_mapper_ext/src/operations/mod.rs:358-380 | registering two names in either order leaves the same listing for every device |
| ConfigMetadataScenarios.FirstConvert | crates/extensions/c8y_mapper_ext/src/operations/mod.rs:247-263 | the first metadata message for a device yields `114,<name>` then `119,<types>` |
| ConfigMetadataScenarios.SecondConvert | crates/extensions/c8y_mapper_ext/src/operations/mod.rs:271-290 | a second, smaller operation name is announced together with the first, in increasing order, then the types |
| ConfigMetadataScenarios.RepeatedConvert | crates/extensions/c8y_mapper_ext/src/operations/mod.rs:340-356 | metadata for an operation already registered yields only the `119` record, and the state is unchanged |
| ConfigMetadataScenarios.MainDeviceScenario | crates/extensions/c8y_mapper_ext/src/operations/mod.rs:239-297 | the main-device test: both metadata messages yield the announcements and type records the test expects |
| ConfigMetadataScenarios.ChildDeviceScenario | crates/extensions/c8y_mapper_ext/src/operations/mod.rs:300-405 | the child-device test: four metadata messages, with repeated operations yielding only their type records |
| ConfigMetadataScenarios.MainDeviceTest | crates/extensions/c8y_mapper_ext/src/operations/mod.rs:239-297 | with the test's own device, topic `c8y/s/us`, operation names and `typeA` … `typeF`, the two messages yield exactly the records the test asserts |
| ConfigMetadataScenarios.ChildDeviceTest | crates/extensions/c8y_mapper_ext/src/operations/mod.rs:300-405 | with the child's topic `c8y/s/us/test-device:device:child1` and the test's names and types, the four messages yield exactly the records the test asserts |
| ConfigMetadataScenarios.TestNamesInOrder | crates/extensions/c8y_mapper_ext/src/operations/mod.rs:259-287 | the operation names and config types of the tests are ordered as the scenarios assume (`c8y_DownloadConfigFile` before `c8y_UploadConfigFile`, `typeA` … `typeF` increasing) |
| SmartRestResponse.ResponseForUploadResult | crates/extensions/c8y_mapper_ext/src/operations/mod.rs:206-221 | the record concerns the given operation; it is a success iff the upload succeeded, and then it carries the binary URL; a failure's reason is `Upload failed with ` followed by exactly the uploader's error text |
| SmartRestResponse.ResponseRoundTrip | crates/extensions/c8y_mapper_ext/src/operations/mod.rs:211-220 | the upload outcome, including the error text, can be read back from the record without loss |
| Errors.MapperError.Display | crates/extensions/c8y_mapper_ext/src/error.rs:19-34 | every variant is transparent: it shows the wrapped error's text |
| Errors.CumulocityMapperError.Display | crates/extensions/c8y_mapper_ext/src/error.rs:148-223 | transparent variants show the wrapped text; each formatted variant consists of its whole template: `Operation execution failed: <message>. Command: <command>` then `. Operation name: <name>`, `Failed to read the child device operations in directory: ` then the directory, and `Error occurred while preprocessing custom operation handler <operation>` then `. Reason: <reason>`, with nothing else |
| Errors.ExecuteFailedText | crates/extensions/c8y_mapper_ext/src/error.rs:196-201 | the text is exactly `Operation execution failed: `, the message, `. Command: `, the command, `. Operation name: ` and the name, the three fields in order |
| Errors.CustomHandlerText | crates/extensions/c8y_mapper_ext/src/error.rs:221-222 | the text is exactly `Error occurred while preprocessing custom operation handler `, the operation, `. Reason: ` and the reason |
| Errors.ConversionError.Display | crates/extensions/c8y_mapper_ext/src/error.rs:44-144 | transparent variants, `FromMapper` and `FromCumulocityMapperError` show the wrapped text; `FromOptionError` is the fixed text; each formatted variant is exactly its template with its fields filled in, nothing between or around (`UnexpectedError` with the opaque debug text) |
| Errors.SizeExceededText | crates/extensions/c8y_mapper_ext/src/error.rs:101-107 | the text is exactly the template: `The payload <payload> received on <topic> after translation is <actual size>` then ` greater than the threshold size of <threshold>.`, sizes in decimal, nothing between or around |
| Errors.ChildNotRegisteredText | crates/extensions/c8y_mapper_ext/src/error.rs:112-113 | the text is exactly `The given Child ID '`, the id, then the whole fixed sentence that follows it in the template |
| Errors.AutoRegistrationDisabledText | crates/extensions/c8y_mapper_ext/src/error.rs:139-140 | the text is exactly `The provided entity: `, the entity, then ` was not found and could not be auto-registered either, because it is disabled` |
| Errors.PrefixedText | crates/extensions/c8y_mapper_ext/src/error.rs:115-116 | a one-argument template ending in its argument is its head immediately followed by the argument, nothing between |
| Errors.MessageConversionError.Display | crates/extensions/c8y_mapper_ext/src/error.rs:36-41 | the text is exactly `Failed to convert a message on topic '` and the topic, then `': ` and the inner error's text, with nothing between or around |
| Errors.MessageConversionErrorRoundTrip | crates/extensions/c8y_mapper_ext/src/error.rs:36-41 | the topic and the inner error's text can both be parsed back out of the annotated message |
| Errors.ElapsedThroughLayers | crates/extensions/c8y_mapper_ext/src/error.rs:161-162 | a timeout wrapped into `CumulocityMapperError`, then `ConversionError`, displays as the timeout's own text, and annotated with any topic the message still ends with it; when the topic has no quote, topic and timeout text both parse back out |
| StringOrder.LeTotal | crates/extensions/c8y_mapper_ext/src/operations/mod.rs:196 | the string order used by `sort` is total |
| StringOrder.LeAntisymmetric | crates/extensions/c8y_mapper_ext/src/operations/mod.rs:196 | the string order is antisymmetric |
| StringOrder.LeTransitive | crates/extensions/c8y_mapper_ext/src/operations/mod.rs:196 | the string order is transitive |
| StringOrder.Sort | crates/extensions/c8y_mapper_ext/src/operations/mod.rs:195-196 | `types.sort()` returns a sorted permutation of its input |
| StringOrder.SortedUnique | crates/extensions/c8y_mapper_ext/src/operations/mod.rs:195-196 | two sorted permutations of the same multiset are equal, so the sorted order is determined by the input's contents |
| StringOrder.StrictlySortedUnique | crates/extensions/c8y_mapper_ext/src/operations/mod.rs:280-290 | two strictly increasing lists with the same elements are equal, so the announced listing is determined by the set of names |
| Text.SplitJoin | crates/extensions/c8y_mapper_ext/src/operations/mod.rs:197 | joining comma-free strings with a comma and splitting the result again gives back the list |
| Text.DecimalRoundTrip | crates/extensions/c8y_mapper_ext/src/error.rs:101 | the decimal rendering of a size parses back to the same number |
| Text.FormatEmbedsArgs | crates/extensions/c8y_mapper_ext/src/error.rs:101 | a rendered `format!` template contains its arguments in order |

## Left out

- `plugins/c8y_remote_access_plugin/src/proxy.rs` is not part of this model. It is a TCP/WebSocket byte tunnel with a TLS connect path; its `Sec-WebSocket-Key` (section 4.1 of RFC 6455) is random bytes put through an external base64 encoder.
- `tokio::spawn` and the concurrency between operations are left out: one invocation of `handle_operation` is a sequential function producing its trace.
- The per-kind handler bodies are parameters of `Operations.Route`, because their submodules are not part of this model. This covers restart, software list/update, log upload, config snapshot/update and firmware update.
- `upload_operation_log` is left out; only its success or failure, with its error text, enters the model.
- `mqtt_publisher.send(..).unwrap()`: delivery is external, so a `Publish` action stands for a successful send; the panic on a closed channel is not modelled.
- `ConfigMetadata::from_json` and `payload_str` are left out: `Capabilities.ConvertConfigMetadata` takes the parsed type list, or the parse error, as input.
- The body of `register_operation` is left out: its marker files, entity lookup and failure causes collapse into one success/failure outcome. The set of registered names per device is inferred from the tests.
- Capabilities.RegisterOperation: receives the SmartREST topic the registrar announces on as a parameter. `Capabilities.ConvertConfigMetadata` passes it its own topic lookup, or the empty string when that lookup fails. In that case the conversion drops every message anyway.
- The SmartREST serializer (`succeed_static_operation`, `fail_operation`) is left out: the record is the abstract `Succeed(operation, url) | Fail(operation, reason)`, not its CSV wire form.
- The fields of `OperationHandler` are left out: HTTP and auth proxies, endpoint, uploader/downloader mailboxes and configuration flags.
- The `tracing` line `convert_config_metadata` writes when registration fails is left out; the `error!` lines of `handle_operation` are kept, as `LogError` actions.
- The texts of foreign error types (MQTT, io, serde_json, time, entity store, …) are opaque strings. `UnexpectedError`'s `Debug` rendering of an `anyhow::Error` is opaque too.
- The 23 `ConversionError` variants that only wrap a foreign error are one constructor, `Foreign(kind, source)`, tagged with the variant's name.
- `{error:#}` (the alternate flag in `MessageConversionError`) renders the inner error as plain `Display`. The formatted variants ignore the flag, and foreign texts are opaque.
- `usize` is taken to be 64 bits wide (`Text.Usize`).
- The QoS and retain flags `MqttMessage::new` gives a message are left out: `Operations.MqttMessage` is a topic and a payload, and no property here depends on the flags.
- Errors.MessageConversionErrorRoundTrip: needs a topic without `'`, because otherwise the end of the topic cannot be told apart in the text. MQTT topics may contain `'`.
- Capabilities.AnnouncementListsRegisteredNames: needs operation names without commas, because the comma-separated listing cannot be split back otherwise.
- Capabilities.SupportedConfigTypesListsTypes: the read-back of the types is promised only for a non-empty list of comma-free types, because a comma inside a type cannot be told from a separator and an empty list splits back as one empty field; the `119,` prefix and the empty case hold for every list.
- The child device's own registration messages, which the child-device test skips, are outside this model.
