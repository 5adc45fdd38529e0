/**
 * Capability registration and `CumulocityConverter::convert_config_metadata`.
 *
 * The registrar keeps, per device, the set of Cumulocity operation names
 * announced so far (on disk, one marker file per name).  The model holds that
 * set as its canonical listing, the strictly sorted sequence of the names: it
 * is what the announcement message lists.
 */
module Capabilities {
  import opened Outcomes
  import opened StringOrder
  import opened Text
  import opened Errors
  import opened Operations

  /** Per device, keyed by entity topic id, the registered operation names in strictly increasing order. */
  type Registry = map<string, seq<string>>

  predicate ValidRegistry(reg: Registry) {
    forall d :: d in reg ==> StrictlySorted(reg[d])
  }

  /** The names registered for `device`, in increasing order. */
  function RegisteredList(reg: Registry, device: string): (names: seq<string>) {
    if device in reg then reg[device] else []
  }

  /** The names registered for `device`. */
  function Registered(reg: Registry, device: string): (names: set<string>) {
    Elements(RegisteredList(reg, device))
  }

  /** SmartREST "set supported operations". */
  const SupportedOperationsCode: string := "114"
  /** SmartREST "set supported configurations". */
  const SupportedConfigTypesCode: string := "119"

  /** A SmartREST record listing values: the message code, then the values, comma separated. */
  function SmartRestList(code: string, values: seq<string>): (record: string) {
    code + "," + Join(values, ",")
  }

  /**
   * `register_operation`: records `name` for `device`.  `markers` is the outcome
   * of creating the marker file (and of the entity lookup behind it).  A new
   * name yields one announcement listing every name now registered for the
   * device; a known name yields nothing.
   */
  function RegisterOperation(reg: Registry, device: string, smartrestTopic: string, name: string,
                             markers: Result<(), ConversionError>): (r: Result<(Registry, seq<MqttMessage>), ConversionError>)
    requires ValidRegistry(reg)
    ensures markers.Err? <==> r.Err?
    ensures markers.Err? ==> r.error == markers.error
    ensures r.Ok? ==> ValidRegistry(r.value.0)
    ensures r.Ok? ==> Registered(r.value.0, device) == Registered(reg, device) + {name}
    ensures r.Ok? ==> forall d :: d != device ==> RegisteredList(r.value.0, d) == RegisteredList(reg, d)
    ensures r.Ok? && name in Registered(reg, device) ==> r.value.1 == []
    ensures r.Ok? && name !in Registered(reg, device) ==>
      r.value.1 == [MqttMessage(smartrestTopic, SmartRestList(SupportedOperationsCode, RegisteredList(r.value.0, device)))]
  {
    match markers
    case Err(e) => Err(e)
    case Ok(_) =>
      var names := RegisteredList(reg, device);
      if name in names then
        Ok((reg, []))
      else
        InsertNew(name, names);
        var names' := Insert(name, names);
        Ok((reg[device := names'], [MqttMessage(smartrestTopic, SmartRestList(SupportedOperationsCode, names'))]))
  }

  /** The "supported configuration types" payload: the types sorted, comma separated. */
  function SupportedConfigTypesPayload(types: seq<string>): (payload: string)
    ensures StartsWith(payload, SupportedConfigTypesCode + ",")
    ensures types == [] ==> payload == "119,"
  {
    var sorted := Sort(types);
    assert types == [] ==> sorted == [] by {
      assert |multiset(sorted)| == |multiset(types)|;
    }
    SmartRestList(SupportedConfigTypesCode, sorted)
  }

  /**
   * `convert_config_metadata` for the metadata message of a config operation.
   * `types` is the parsed `types` list of the message (or the parse error),
   * `markers` the outcome of registering `opName`, and `smartrestTopic` the
   * lookup of the entity's SmartREST topic.  Returns the new registry and the
   * conversion result.
   */
  function ConvertConfigMetadata(reg: Registry, device: string, types: Result<seq<string>, ConversionError>,
                                 opName: string, markers: Result<(), ConversionError>,
                                 smartrestTopic: Result<string, ConversionError>)
    : (r: (Registry, Result<seq<MqttMessage>, ConversionError>))
    requires ValidRegistry(reg)
    ensures ValidRegistry(r.0)
    ensures types.Err? ==> r == (reg, Err(types.error))
    ensures types.Ok? && markers.Err? ==> r == (reg, Ok([]))
    ensures types.Ok? && markers.Ok? ==>
      var registered := RegisterOperation(reg, device, smartrestTopic.UnwrapOr(""), opName, markers).value;
      && r.0 == registered.0
      && (smartrestTopic.Err? ==> r.1 == Err(smartrestTopic.error))
      && (smartrestTopic.Ok? ==>
            r.1 == Ok(registered.1 + [MqttMessage(smartrestTopic.value, SupportedConfigTypesPayload(types.value))]))
  {
    match types
    case Err(e) => (reg, Err(e))
    case Ok(ts) =>
      // The registrar derives the same topic from the device's directory; when the
      // converter's own lookup fails, every message is dropped, whatever its topic.
      match RegisterOperation(reg, device, smartrestTopic.UnwrapOr(""), opName, markers)
      case Err(_) => (reg, Ok([]))
      case Ok((reg', messages)) =>
        var payload := SupportedConfigTypesPayload(ts);
        match smartrestTopic
        case Err(e) => (reg', Err(e))
        case Ok(topic) => (reg', Ok(messages + [MqttMessage(topic, payload)]))
  }

  /** The number of messages in `msgs` that are SmartREST records with message code `code`. */
  function CountRecords(msgs: seq<MqttMessage>, code: string): (n: nat)
    decreases |msgs|
  {
    if |msgs| == 0 then 0
    else (if StartsWith(msgs[0].payload, code + ",") then 1 else 0) + CountRecords(msgs[1..], code)
  }

  lemma {:induction false} CountRecordsAppend(a: seq<MqttMessage>, b: seq<MqttMessage>, code: string)
    ensures CountRecords(a + b, code) == CountRecords(a, code) + CountRecords(b, code)
    decreases |a|
  {
    if |a| == 0 {
      assert a + b == b;
    } else {
      assert (a + b)[1..] == a[1..] + b;
      CountRecordsAppend(a[1..], b, code);
    }
  }

  /**
   * A successful conversion emits exactly one "supported configuration types"
   * record, last, whatever the registrar announced before it.
   */
  lemma OneSupportedConfigTypesRecord(reg: Registry, device: string, types: seq<string>, opName: string,
                                      topic: string)
    requires ValidRegistry(reg)
    ensures
      var out := ConvertConfigMetadata(reg, device, Ok(types), opName, Ok(()), Ok(topic)).1;
      && out.Ok? && |out.value| > 0
      && CountRecords(out.value, SupportedConfigTypesCode) == 1
      && StartsWith(out.value[|out.value| - 1].payload, SupportedConfigTypesCode + ",")
  {
    var registered := RegisterOperation(reg, device, topic, opName, Ok(())).value.1;
    var last := MqttMessage(topic, SupportedConfigTypesPayload(types));
    assert StartsWith(last.payload, SupportedConfigTypesCode + ",");
    assert CountRecords([last], SupportedConfigTypesCode) == 1;
    assert CountRecords(registered, SupportedConfigTypesCode) == 0 by {
      if |registered| > 0 {
        var p := registered[0].payload;
        assert p == "114" + "," + Join(RegisteredList(RegisterOperation(reg, device, topic, opName, Ok(())).value.0, device), ",");
        assert p[..4] == "114,";
        assert p[..4][2] == '4' && (SupportedConfigTypesCode + ",")[2] == '9';
        assert !StartsWith(p, SupportedConfigTypesCode + ",");
        assert registered[1..] == [];
      }
    }
    CountRecordsAppend(registered, [last], SupportedConfigTypesCode);
  }

  /** The supported configuration types record does not depend on the order of the types received. */
  lemma SupportedConfigTypesOrderIndependent(a: seq<string>, b: seq<string>)
    requires multiset(a) == multiset(b)
    ensures SupportedConfigTypesPayload(a) == SupportedConfigTypesPayload(b)
  {
    SortDependsOnlyOnMultiset(a, b);
  }

  /**
   * The supported configuration types record is `119,` followed by the received
   * types.  An empty list gives `119,` alone; read back, a non-empty list of
   * comma-free types comes out sorted, each type as often as it was received.
   */
  lemma SupportedConfigTypesListsTypes(types: seq<string>)
    ensures
      var payload := SupportedConfigTypesPayload(types);
      && StartsWith(payload, SupportedConfigTypesCode + ",")
      && (types == [] ==> payload == "119,")
      && (|types| > 0 && (forall i :: 0 <= i < |types| ==> ',' !in types[i]) ==>
            var listed := Split(payload[|SupportedConfigTypesCode| + 1..], ',');
            Sorted(listed) && multiset(listed) == multiset(types))
  {
    var sorted := Sort(types);
    var payload := SupportedConfigTypesPayload(types);
    assert payload[|SupportedConfigTypesCode| + 1..] == Join(sorted, ",");
    if types == [] {
      assert sorted == [];
    }
    if |types| > 0 && (forall i :: 0 <= i < |types| ==> ',' !in types[i]) {
      forall i | 0 <= i < |sorted|
        ensures ',' !in sorted[i]
      {
        assert sorted[i] in multiset(types);
      }
      assert |sorted| > 0 by {
        assert |multiset(sorted)| == |multiset(types)|;
      }
      SplitJoin(sorted, ',');
    }
  }

  /**
   * Read back, an announcement lists every name registered for the device, in
   * increasing order, each once (when no name contains a comma).
   */
  lemma AnnouncementListsRegisteredNames(reg: Registry, device: string, topic: string, name: string)
    requires ValidRegistry(reg)
    requires name !in Registered(reg, device)
    requires forall x :: x in Registered(reg, device) ==> ',' !in x
    requires ',' !in name
    ensures
      var r := RegisterOperation(reg, device, topic, name, Ok(())).value;
      && |r.1| == 1
      && var listed := Split(r.1[0].payload[|SupportedOperationsCode| + 1..], ',');
      && StrictlySorted(listed) && Elements(listed) == Registered(reg, device) + {name}
  {
    var r := RegisterOperation(reg, device, topic, name, Ok(())).value;
    var names := RegisteredList(r.0, device);
    assert Elements(names) == Registered(reg, device) + {name};
    forall i | 0 <= i < |names|
      ensures ',' !in names[i]
    {
      assert names[i] in Elements(names);
    }
    SplitJoin(names, ',');
    var joined := Join(names, ",");
    assert r.1[0].payload == SupportedOperationsCode + "," + joined;
    assert (SupportedOperationsCode + "," + joined)[|SupportedOperationsCode| + 1..] == joined;
  }

  /** Registering a name twice: the second registration announces nothing and changes nothing. */
  lemma RegisterIdempotent(reg: Registry, device: string, topic: string, name: string)
    requires ValidRegistry(reg)
    ensures
      var first := RegisterOperation(reg, device, topic, name, Ok(())).value;
      RegisterOperation(first.0, device, topic, name, Ok(())) == Ok((first.0, []))
  {
  }

  lemma ValidListing(reg: Registry, device: string)
    requires ValidRegistry(reg)
    ensures StrictlySorted(RegisteredList(reg, device))
  {
  }

  /** The names registered for every device do not depend on the order in which two names were registered. */
  lemma RegistrationOrderIrrelevant(reg: Registry, device: string, topic: string, a: string, b: string)
    requires ValidRegistry(reg)
    ensures
      var ra := RegisterOperation(RegisterOperation(reg, device, topic, a, Ok(())).value.0, device, topic, b, Ok(())).value.0;
      var rb := RegisterOperation(RegisterOperation(reg, device, topic, b, Ok(())).value.0, device, topic, a, Ok(())).value.0;
      forall d :: RegisteredList(ra, d) == RegisteredList(rb, d)
  {
    var ra1 := RegisterOperation(reg, device, topic, a, Ok(())).value.0;
    var ra := RegisterOperation(ra1, device, topic, b, Ok(())).value.0;
    var rb1 := RegisterOperation(reg, device, topic, b, Ok(())).value.0;
    var rb := RegisterOperation(rb1, device, topic, a, Ok(())).value.0;
    forall d
      ensures RegisteredList(ra, d) == RegisteredList(rb, d)
    {
      if d == device {
        ValidListing(ra, d);
        ValidListing(rb, d);
        StrictlySortedUnique(RegisteredList(ra, d), RegisteredList(rb, d));
      }
    }
  }
}
