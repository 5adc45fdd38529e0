/**
 * The config-metadata scenarios of the mapper's tests, replayed on the model:
 * the announcements and supported-types records each metadata message yields.
 */
module ConfigMetadataScenarios {
  import opened Outcomes
  import opened StringOrder
  import opened Text
  import opened Capabilities
  import opened Errors
  import opened Operations

  const UploadConfigFile: string := "c8y_UploadConfigFile"
  const DownloadConfigFile: string := "c8y_DownloadConfigFile"

  /** Putting the same prefix in front of two strings keeps their order. */
  lemma {:induction false} LePrefixed(p: string, a: string, b: string)
    requires Le(a, b)
    ensures Le(p + a, p + b)
    decreases |p|
  {
    if |p| > 0 {
      assert (p + a)[0] == p[0] == (p + b)[0];
      assert (p + a)[1..] == p[1..] + a && (p + b)[1..] == p[1..] + b;
      LePrefixed(p[1..], a, b);
      assert Le((p + a)[1..], (p + b)[1..]);
    } else {
      assert p + a == a && p + b == b;
    }
  }

  /** The config types of the tests, in increasing order. */
  lemma TypeOrder()
    ensures Le("typeA", "typeB") && Le("typeB", "typeC") && Le("typeC", "typeD")
    ensures Le("typeD", "typeE") && Le("typeE", "typeF")
  {
    assert "typeA" == "type" + "A" && "typeB" == "type" + "B" && "typeC" == "type" + "C";
    assert "typeD" == "type" + "D" && "typeE" == "type" + "E" && "typeF" == "type" + "F";
    LePrefixed("type", "A", "B");
    LePrefixed("type", "B", "C");
    LePrefixed("type", "C", "D");
    LePrefixed("type", "D", "E");
    LePrefixed("type", "E", "F");
  }

  /** Two strings that agree up to position k and differ there are ordered by that position. */
  lemma {:induction false} LeAtFirstDifference(a: string, b: string, k: nat)
    requires k < |a| && k < |b| && a[..k] == b[..k] && a[k] < b[k]
    ensures Le(a, b)
    decreases k
  {
    if k > 0 {
      assert a[1..][..k - 1] == a[..k][1..] == b[..k][1..] == b[1..][..k - 1];
      LeAtFirstDifference(a[1..], b[1..], k - 1);
      assert a[0] == a[..k][0] == b[..k][0] == b[0];
    }
  }

  /** The config-file operations of the tests, download before upload. */
  lemma OperationOrder()
    ensures Le(DownloadConfigFile, UploadConfigFile) && DownloadConfigFile != UploadConfigFile
  {
    assert DownloadConfigFile[..4] == "c8y_" == UploadConfigFile[..4];
    assert DownloadConfigFile[4] == 'D' && UploadConfigFile[4] == 'U';
    LeAtFirstDifference(DownloadConfigFile, UploadConfigFile, 4);
  }

  lemma SortThree(a: string, b: string, c: string)
    requires Le(a, b) && Le(b, c)
    ensures Sort([a, b, c]) == [a, b, c]
  {
    assert Sorted([a, b, c]) by {
      LeTransitive(a, b, c);
    }
    SortOfSorted([a, b, c]);
  }

  lemma JoinThree(a: string, b: string, c: string)
    ensures Join([a, b, c], ",") == a + "," + b + "," + c
  {
    assert [a, b, c][1..] == [b, c] && [b, c][1..] == [c];
    assert Join([c], ",") == c;
    assert Join([b, c], ",") == b + "," + c;
  }

  /** The supported types record of three types already in increasing order. */
  lemma SupportedTypesOfThree(a: string, b: string, c: string)
    requires Le(a, b) && Le(b, c)
    ensures SupportedConfigTypesPayload([a, b, c]) == "119," + a + "," + b + "," + c
  {
    SortThree(a, b, c);
    JoinThree(a, b, c);
    Reassociate(SupportedConfigTypesCode, a, b, c);
    assert SupportedConfigTypesCode + "," == "119,";
  }

  lemma Reassociate(code: string, a: string, b: string, c: string)
    ensures code + "," + (a + "," + b + "," + c) == code + "," + a + "," + b + "," + c
  {
  }

  /** The first operation registered for a device announces only itself. */
  lemma FirstRegistration(reg: Registry, device: string, topic: string, name: string)
    requires ValidRegistry(reg) && device !in reg
    ensures RegisterOperation(reg, device, topic, name, Ok(())) == Ok((reg[device := [name]], [MqttMessage(topic, "114," + name)]))
  {
    assert RegisteredList(reg, device) == [];
    assert Insert(name, []) == [name];
    assert Join([name], ",") == name;
    assert SupportedOperationsCode + "," == "114,";
    assert SmartRestList(SupportedOperationsCode, [name]) == "114," + name;
  }

  lemma ListingOfTwo(first: string, second: string)
    requires Le(second, first) && second != first
    ensures StrictlySorted([second, first])
  {
  }

  /** A second, smaller name is announced together with the first, in increasing order. */
  lemma SecondRegistration(reg: Registry, device: string, topic: string, first: string, second: string)
    requires ValidRegistry(reg) && device in reg && reg[device] == [first]
    requires Le(second, first) && second != first
    ensures RegisterOperation(reg, device, topic, second, Ok(()))
         == Ok((reg[device := [second, first]], [MqttMessage(topic, "114," + second + "," + first)]))
  {
    assert RegisteredList(reg, device) == [first];
    assert second !in [first];
    assert Insert(second, [first]) == [second, first];
    assert [second, first][1..] == [first];
    assert Join([first], ",") == first;
    assert Join([second, first], ",") == second + "," + first;
    assert SupportedOperationsCode + "," == "114,";
    assert SmartRestList(SupportedOperationsCode, [second, first]) == "114," + second + "," + first;
  }

  /** A name already registered is not announced again. */
  lemma RepeatedRegistration(reg: Registry, device: string, topic: string, name: string)
    requires ValidRegistry(reg) && device in reg && name in reg[device]
    ensures RegisterOperation(reg, device, topic, name, Ok(())) == Ok((reg, []))
  {
  }

  /** One metadata message whose registration succeeds: the registrar's messages, then the supported types record. */
  lemma ConvertStep(reg: Registry, device: string, topic: string, types: seq<string>, opName: string,
                    reg': Registry, announced: seq<MqttMessage>, payload: string)
    requires ValidRegistry(reg)
    requires RegisterOperation(reg, device, topic, opName, Ok(())) == Ok((reg', announced))
    requires SupportedConfigTypesPayload(types) == payload
    ensures ConvertConfigMetadata(reg, device, Ok(types), opName, Ok(()), Ok(topic))
         == (reg', Ok(announced + [MqttMessage(topic, payload)]))
  {
    var smartrestTopic: Result<string, ConversionError> := Ok(topic);
    assert smartrestTopic.UnwrapOr("") == topic;
  }

  /** A metadata message whose registration announces exactly one record. */
  lemma ConvertAnnouncing(reg: Registry, device: string, topic: string, types: seq<string>, opName: string,
                          reg': Registry, announcement: MqttMessage, payload: string)
    requires ValidRegistry(reg)
    requires RegisterOperation(reg, device, topic, opName, Ok(())) == Ok((reg', [announcement]))
    requires SupportedConfigTypesPayload(types) == payload
    ensures ConvertConfigMetadata(reg, device, Ok(types), opName, Ok(()), Ok(topic))
         == (reg', Ok([announcement, MqttMessage(topic, payload)]))
  {
    ConvertStep(reg, device, topic, types, opName, reg', [announcement], payload);
    assert [announcement] + [MqttMessage(topic, payload)] == [announcement, MqttMessage(topic, payload)];
  }

  /** Metadata for a device seen for the first time: its one operation is announced, then the types. */
  lemma FirstConvert(reg: Registry, device: string, topic: string, name: string, a: string, b: string, c: string)
    requires ValidRegistry(reg) && device !in reg
    requires Le(a, b) && Le(b, c)
    ensures ConvertConfigMetadata(reg, device, Ok([a, b, c]), name, Ok(()), Ok(topic))
         == (reg[device := [name]], Ok([MqttMessage(topic, "114," + name), MqttMessage(topic, "119," + a + "," + b + "," + c)]))
  {
    SupportedTypesOfThree(a, b, c);
    FirstRegistration(reg, device, topic, name);
    ConvertAnnouncing(reg, device, topic, [a, b, c], name, reg[device := [name]],
                      MqttMessage(topic, "114," + name), "119," + a + "," + b + "," + c);
  }

  /** Metadata registering a second, smaller operation: both are announced, then the types. */
  lemma SecondConvert(reg: Registry, device: string, topic: string, first: string, second: string,
                      a: string, b: string, c: string)
    requires ValidRegistry(reg) && device in reg && reg[device] == [first]
    requires Le(second, first) && second != first
    requires Le(a, b) && Le(b, c)
    ensures ConvertConfigMetadata(reg, device, Ok([a, b, c]), second, Ok(()), Ok(topic))
         == (reg[device := [second, first]],
             Ok([MqttMessage(topic, "114," + second + "," + first), MqttMessage(topic, "119," + a + "," + b + "," + c)]))
  {
    SupportedTypesOfThree(a, b, c);
    SecondRegistration(reg, device, topic, first, second);
    ConvertAnnouncing(reg, device, topic, [a, b, c], second, reg[device := [second, first]],
                      MqttMessage(topic, "114," + second + "," + first), "119," + a + "," + b + "," + c);
  }

  /** Metadata for an operation already registered: only the types are published. */
  lemma RepeatedConvert(reg: Registry, device: string, topic: string, name: string, a: string, b: string, c: string)
    requires ValidRegistry(reg) && device in reg && name in reg[device]
    requires Le(a, b) && Le(b, c)
    ensures ConvertConfigMetadata(reg, device, Ok([a, b, c]), name, Ok(()), Ok(topic))
         == (reg, Ok([MqttMessage(topic, "119," + a + "," + b + "," + c)]))
  {
    var payload := "119," + a + "," + b + "," + c;
    SupportedTypesOfThree(a, b, c);
    RepeatedRegistration(reg, device, topic, name);
    ConvertStep(reg, device, topic, [a, b, c], name, reg, [], payload);
    assert [] + [MqttMessage(topic, payload)] == [MqttMessage(topic, payload)];
  }

  /**
   * Metadata for config_snapshot (registering `upload`, types a, b, c), then for
   * config_update (registering `download`, types d, e, f), on a device seen for
   * the first time.  The names of the test satisfy the ordering assumed here
   * (`TestNamesInOrder`).
   */
  lemma MainDeviceScenario(device: string, topic: string, upload: string, download: string,
                           a: string, b: string, c: string, d: string, e: string, f: string)
    requires Le(download, upload) && download != upload
    requires Le(a, b) && Le(b, c) && Le(d, e) && Le(e, f)
    ensures
      var step1 := ConvertConfigMetadata(map[], device, Ok([a, b, c]), upload, Ok(()), Ok(topic));
      var step2 := ConvertConfigMetadata(step1.0, device, Ok([d, e, f]), download, Ok(()), Ok(topic));
      && step1.1 == Ok([MqttMessage(topic, "114," + upload), MqttMessage(topic, "119," + a + "," + b + "," + c)])
      && step2.1 == Ok([MqttMessage(topic, "114," + download + "," + upload),
                        MqttMessage(topic, "119," + d + "," + e + "," + f)])
  {
    var reg0: Registry := map[];
    FirstConvert(reg0, device, topic, upload, a, b, c);
    SecondConvert(reg0[device := [upload]], device, topic, upload, download, d, e, f);
  }

  /**
   * The same on a child device, with a changed type list (b, c, d) sent for
   * each operation once it is registered: only the supported types record follows.
   */
  lemma ChildDeviceScenario(device: string, topic: string, upload: string, download: string,
                            a: string, b: string, c: string, d: string, e: string, f: string)
    requires Le(download, upload) && download != upload
    requires Le(a, b) && Le(b, c) && Le(c, d) && Le(d, e) && Le(e, f)
    ensures
      var step1 := ConvertConfigMetadata(map[], device, Ok([a, b, c]), upload, Ok(()), Ok(topic));
      var step2 := ConvertConfigMetadata(step1.0, device, Ok([b, c, d]), upload, Ok(()), Ok(topic));
      var step3 := ConvertConfigMetadata(step2.0, device, Ok([d, e, f]), download, Ok(()), Ok(topic));
      var step4 := ConvertConfigMetadata(step3.0, device, Ok([b, c, d]), download, Ok(()), Ok(topic));
      && step1.1 == Ok([MqttMessage(topic, "114," + upload), MqttMessage(topic, "119," + a + "," + b + "," + c)])
      && step2.1 == Ok([MqttMessage(topic, "119," + b + "," + c + "," + d)])
      && step3.1 == Ok([MqttMessage(topic, "114," + download + "," + upload),
                        MqttMessage(topic, "119," + d + "," + e + "," + f)])
      && step4.1 == Ok([MqttMessage(topic, "119," + b + "," + c + "," + d)])
  {
    var reg1: Registry := map[device := [upload]];
    FirstConvert(map[], device, topic, upload, a, b, c);
    RepeatedConvert(reg1, device, topic, upload, b, c, d);
    SecondConvert(reg1, device, topic, upload, download, d, e, f);
    RegisteredDownloadAgain(reg1, device, topic, upload, download, b, c, d);
  }

  /** The last step of the child-device scenario, once both operations are registered. */
  lemma RegisteredDownloadAgain(reg: Registry, device: string, topic: string, upload: string, download: string,
                                b: string, c: string, d: string)
    requires ValidRegistry(reg) && device in reg && reg[device] == [upload]
    requires Le(download, upload) && download != upload
    requires Le(b, c) && Le(c, d)
    ensures ConvertConfigMetadata(reg[device := [download, upload]], device, Ok([b, c, d]), download, Ok(()), Ok(topic))
         == (reg[device := [download, upload]], Ok([MqttMessage(topic, "119," + b + "," + c + "," + d)]))
  {
    ListingOfTwo(upload, download);
    RepeatedConvert(reg[device := [download, upload]], device, topic, download, b, c, d);
  }

  /** The operation names and config types of the tests are in the order the scenarios assume. */
  lemma TestNamesInOrder()
    ensures Le(DownloadConfigFile, UploadConfigFile) && DownloadConfigFile != UploadConfigFile
    ensures Le("typeA", "typeB") && Le("typeB", "typeC") && Le("typeC", "typeD")
    ensures Le("typeD", "typeE") && Le("typeE", "typeF")
  {
    TypeOrder();
    OperationOrder();
  }

  // The tests' expected payloads are single literals such as "119,typeA,typeB,typeC"; they are written
  // below as concatenations of the same pieces, which the verifier compares far more cheaply.

  /** The main-device test with its own names: topic `c8y/s/us`, the expected records verbatim. */
  lemma MainDeviceTest()
    ensures
      var device, topic := "device/main//", "c8y/s/us";
      var step1 := ConvertConfigMetadata(map[], device, Ok(["typeA", "typeB", "typeC"]), UploadConfigFile, Ok(()), Ok(topic));
      var step2 := ConvertConfigMetadata(step1.0, device, Ok(["typeD", "typeE", "typeF"]), DownloadConfigFile, Ok(()), Ok(topic));
      && step1.1 == Ok([MqttMessage(topic, "114," + UploadConfigFile), MqttMessage(topic, "119," + "typeA" + "," + "typeB" + "," + "typeC")])
      && step2.1 == Ok([MqttMessage(topic, "114," + DownloadConfigFile + "," + UploadConfigFile),
                        MqttMessage(topic, "119," + "typeD" + "," + "typeE" + "," + "typeF")])
  {
    TestNamesInOrder();
    MainDeviceScenario("device/main//", "c8y/s/us", UploadConfigFile, DownloadConfigFile,
                       "typeA", "typeB", "typeC", "typeD", "typeE", "typeF");
  }

  /** The child-device test with its own names: the child's SmartREST topic, the expected records verbatim. */
  lemma ChildDeviceTest()
    ensures
      var device, topic := "device/child1//", "c8y/s/us/test-device:device:child1";
      var step1 := ConvertConfigMetadata(map[], device, Ok(["typeA", "typeB", "typeC"]), UploadConfigFile, Ok(()), Ok(topic));
      var step2 := ConvertConfigMetadata(step1.0, device, Ok(["typeB", "typeC", "typeD"]), UploadConfigFile, Ok(()), Ok(topic));
      var step3 := ConvertConfigMetadata(step2.0, device, Ok(["typeD", "typeE", "typeF"]), DownloadConfigFile, Ok(()), Ok(topic));
      var step4 := ConvertConfigMetadata(step3.0, device, Ok(["typeB", "typeC", "typeD"]), DownloadConfigFile, Ok(()), Ok(topic));
      && step1.1 == Ok([MqttMessage(topic, "114," + UploadConfigFile), MqttMessage(topic, "119," + "typeA" + "," + "typeB" + "," + "typeC")])
      && step2.1 == Ok([MqttMessage(topic, "119," + "typeB" + "," + "typeC" + "," + "typeD")])
      && step3.1 == Ok([MqttMessage(topic, "114," + DownloadConfigFile + "," + UploadConfigFile),
                        MqttMessage(topic, "119," + "typeD" + "," + "typeE" + "," + "typeF")])
      && step4.1 == Ok([MqttMessage(topic, "119," + "typeB" + "," + "typeC" + "," + "typeD")])
  {
    TestNamesInOrder();
    ChildDeviceScenario("device/child1//", "c8y/s/us/test-device:device:child1", UploadConfigFile, DownloadConfigFile,
                        "typeA", "typeB", "typeC", "typeD", "typeE", "typeF");
  }
}
