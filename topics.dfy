/** The small Option datatype used throughout the model. */
module Wrappers {
  datatype Option<+T> = None | Some(value: T)
}

/**
 * MQTT topic handling of the discovery add-on: splitting a topic on '/',
 * the topics a gas reader publishes on, and the classifier that decides
 * which inbound messages the discovery engine acts on.
 */
module Topics {
  import opened Wrappers

  /** Prefix of every telemetry topic a gas reader publishes. */
  const TELE_PREFIX: string := "tele"
  /** Prefix under which Home Assistant expects discovery announcements. */
  const DISCOVERY_PREFIX: string := "homeassistant"

  /** The three subscription filters set up on connect (recorded only). */
  const SUB_JSON: string := TELE_PREFIX + "/+/json"
  const SUB_MAIN: string := TELE_PREFIX + "/+/main/#"
  const SUB_LWT: string := TELE_PREFIX + "/+/LWT"

  /**
   * Python's `topic.split("/")`: every '/' separates two segments, so the
   * result is never empty and empty segments are kept.
   */
  function Split(s: string): (parts: seq<string>)
    ensures |parts| >= 1
    ensures forall i :: 0 <= i < |parts| ==> '/' !in parts[i]
    decreases |s|
  {
    if s == [] then [""]
    else
      var rest := Split(s[1..]);
      if s[0] == '/' then [""] + rest
      else [[s[0]] + rest[0]] + rest[1..]
  }

  /** The inverse of Split: the segments glued back together with '/'. */
  function Join(parts: seq<string>): string
    requires |parts| >= 1
  {
    if |parts| == 1 then parts[0] else parts[0] + "/" + Join(parts[1..])
  }

  /** `tele/<dev>/json`: one consolidated JSON reading. */
  function JsonTopic(dev: string): string {
    TELE_PREFIX + "/" + dev + "/json"
  }

  /** `tele/<dev>/main/<key>`: one flat reading per field. */
  function FieldTopic(dev: string, key: string): string {
    TELE_PREFIX + "/" + dev + "/main/" + key
  }

  /** `tele/<dev>/LWT`: the device's last-will (availability) topic. */
  function LwtTopic(dev: string): string {
    TELE_PREFIX + "/" + dev + "/LWT"
  }

  /** What the message handler makes of a topic, by its structure alone. */
  datatype Event =
    | JsonTelemetry(dev: string)
    | FieldTelemetry(dev: string, key: string)
    | Ignored

  /**
   * The two structural tests of the message handler, in their order:
   * three segments `tele`, device, `json`; or four segments `tele`,
   * device, `main`, key. Everything else falls through.
   */
  function Classify(topic: string): (e: Event)
    ensures e.JsonTelemetry? ==> '/' !in e.dev
    ensures e.FieldTelemetry? ==> '/' !in e.dev && '/' !in e.key
  {
    var parts := Split(topic);
    if |parts| == 3 && parts[0] == TELE_PREFIX && parts[2] == "json" then
      JsonTelemetry(parts[1])
    else if |parts| == 4 && parts[0] == TELE_PREFIX && parts[2] == "main" then
      FieldTelemetry(parts[1], parts[3])
    else
      Ignored
  }

  /** A decoded JSON payload carries both fields the engine requires. */
  predicate IsValidJson(payload: Option<set<string>>) {
    payload.Some? && "gastotal" in payload.value && "value" in payload.value
  }

  /** The two per-field keys that trigger discovery. */
  predicate IsTriggerKey(key: string) {
    key == "gastotal" || key == "value"
  }

  // ---------------------------------------------------------------------
  // Split and Join are inverse to each other
  // ---------------------------------------------------------------------

  lemma {:induction false} JoinSplit(s: string)
    ensures Join(Split(s)) == s
    decreases |s|
  {
    if s != [] {
      var rest := Split(s[1..]);
      JoinSplit(s[1..]);
      if s[0] == '/' {
        assert Split(s) == [""] + rest;
        assert ([""] + rest)[1..] == rest;
        assert s == "" + "/" + s[1..];
      } else {
        var parts := [[s[0]] + rest[0]] + rest[1..];
        assert Split(s) == parts;
        if |rest| == 1 {
          assert Join(rest) == rest[0];
          assert s == [s[0]] + s[1..];
        } else {
          assert parts[1..] == rest[1..];
          assert Join(rest) == rest[0] + "/" + Join(rest[1..]);
          assert s == [s[0]] + s[1..];
        }
      }
    }
  }

  /** Splitting a text that starts with a slash-free part `a`. */
  lemma {:induction false} SplitPrefix(a: string, t: string)
    requires '/' !in a
    ensures Split(a + t) == [a + Split(t)[0]] + Split(t)[1..]
    decreases |a|
  {
    if a == [] {
      assert a + t == t;
      assert a + Split(t)[0] == Split(t)[0];
      assert Split(t) == [Split(t)[0]] + Split(t)[1..];
    } else {
      var a' := a[1..];
      assert a == [a[0]] + a';
      assert a + t == [a[0]] + (a' + t);
      assert (a + t)[1..] == a' + t;
      SplitPrefix(a', t);
      assert a[0] != '/' by { assert a[0] in a; }
      var r := Split(a' + t);
      assert Split(a + t) == [[a[0]] + r[0]] + r[1..];
      assert r[0] == a' + Split(t)[0];
      assert r[1..] == Split(t)[1..];
      assert [a[0]] + (a' + Split(t)[0]) == a + Split(t)[0];
    }
  }

  /** A slash-free segment followed by '/' contributes exactly itself. */
  lemma SplitSegment(a: string, t: string)
    requires '/' !in a
    ensures Split(a + "/" + t) == [a] + Split(t)
  {
    assert a + "/" + t == a + ("/" + t);
    SplitPrefix(a, "/" + t);
    assert ("/" + t)[1..] == t;
    assert Split("/" + t) == [""] + Split(t);
    assert a + "" == a;
  }

  /** A slash-free text is a single segment. */
  lemma SplitAtom(a: string)
    requires '/' !in a
    ensures Split(a) == [a]
  {
    assert a + "" == a;
    SplitPrefix(a, "");
  }

  lemma {:induction false} SplitJoin(parts: seq<string>)
    requires |parts| >= 1
    requires forall i :: 0 <= i < |parts| ==> '/' !in parts[i]
    ensures Split(Join(parts)) == parts
    decreases |parts|
  {
    if |parts| == 1 {
      SplitAtom(parts[0]);
    } else {
      SplitJoin(parts[1..]);
      SplitSegment(parts[0], Join(parts[1..]));
      assert parts == [parts[0]] + parts[1..];
    }
  }

  // ---------------------------------------------------------------------
  // The classifier, stated against the topics a device publishes
  // ---------------------------------------------------------------------

  lemma JoinThree(a: string, b: string, c: string)
    ensures Join([a, b, c]) == a + "/" + b + "/" + c
  {
    assert [a, b, c][1..] == [b, c];
    assert [b, c][1..] == [c];
    assert Join([c]) == c;
    assert Join([b, c]) == b + "/" + c;
    assert Join([a, b, c]) == a + "/" + (b + "/" + c);
    assert a + "/" + (b + "/" + c) == a + "/" + b + "/" + c;
  }

  lemma JoinFour(a: string, b: string, c: string, d: string)
    ensures Join([a, b, c, d]) == a + "/" + b + "/" + c + "/" + d
  {
    assert [a, b, c, d][1..] == [b, c, d];
    JoinThree(b, c, d);
    assert Join([a, b, c, d]) == a + "/" + (b + "/" + c + "/" + d);
    assert a + "/" + (b + "/" + c + "/" + d) == a + "/" + b + "/" + c + "/" + d;
  }

  lemma JsonTopicSegments(dev: string)
    requires '/' !in dev
    ensures Split(JsonTopic(dev)) == [TELE_PREFIX, dev, "json"]
  {
    JoinThree(TELE_PREFIX, dev, "json");
    assert JsonTopic(dev) == TELE_PREFIX + "/" + dev + "/" + "json";
    SplitJoin([TELE_PREFIX, dev, "json"]);
  }

  lemma FieldTopicSegments(dev: string, key: string)
    requires '/' !in dev && '/' !in key
    ensures Split(FieldTopic(dev, key)) == [TELE_PREFIX, dev, "main", key]
  {
    JoinFour(TELE_PREFIX, dev, "main", key);
    assert FieldTopic(dev, key) == TELE_PREFIX + "/" + dev + "/" + "main" + "/" + key;
    SplitJoin([TELE_PREFIX, dev, "main", key]);
  }

  /** A topic takes the JSON path exactly when it is `tele/<dev>/json`. */
  lemma ClassifyJsonIff(topic: string, dev: string)
    ensures Classify(topic) == JsonTelemetry(dev) <==> '/' !in dev && topic == JsonTopic(dev)
  {
    if Classify(topic) == JsonTelemetry(dev) {
      var parts := Split(topic);
      JoinSplit(topic);
      assert parts == [parts[0], parts[1], parts[2]];
      JoinThree(parts[0], parts[1], parts[2]);
    }
    if '/' !in dev && topic == JsonTopic(dev) {
      JsonTopicSegments(dev);
    }
  }

  /** A topic takes the per-field path exactly when it is `tele/<dev>/main/<key>`. */
  lemma ClassifyFieldIff(topic: string, dev: string, key: string)
    ensures Classify(topic) == FieldTelemetry(dev, key)
        <==> '/' !in dev && '/' !in key && topic == FieldTopic(dev, key)
  {
    if Classify(topic) == FieldTelemetry(dev, key) {
      var parts := Split(topic);
      JoinSplit(topic);
      assert parts == [parts[0], parts[1], parts[2], parts[3]];
      JoinFour(parts[0], parts[1], parts[2], parts[3]);
    }
    if '/' !in dev && '/' !in key && topic == FieldTopic(dev, key) {
      FieldTopicSegments(dev, key);
    }
  }

  /** Every other topic shape falls through the handler. */
  lemma ClassifyIgnoredIff(topic: string)
    ensures Classify(topic) == Ignored <==>
              (forall dev :: '/' !in dev ==> topic != JsonTopic(dev)) &&
              (forall dev, key :: '/' !in dev && '/' !in key ==> topic != FieldTopic(dev, key))
  {
    forall dev | '/' !in dev && topic == JsonTopic(dev)
      ensures Classify(topic) != Ignored
    {
      ClassifyJsonIff(topic, dev);
    }
    forall dev, key | '/' !in dev && '/' !in key && topic == FieldTopic(dev, key)
      ensures Classify(topic) != Ignored
    {
      ClassifyFieldIff(topic, dev, key);
    }
    match Classify(topic)
    case JsonTelemetry(dev) =>
      ClassifyJsonIff(topic, dev);
    case FieldTelemetry(dev, key) =>
      ClassifyFieldIff(topic, dev, key);
    case Ignored =>
  }

  /** The last-will topic of a device is not acted on. */
  lemma ClassifyLwtIgnored(dev: string)
    requires '/' !in dev
    ensures Classify(LwtTopic(dev)) == Ignored
  {
    JoinThree(TELE_PREFIX, dev, "LWT");
    assert LwtTopic(dev) == TELE_PREFIX + "/" + dev + "/" + "LWT";
    SplitJoin([TELE_PREFIX, dev, "LWT"]);
  }

  /** A topic whose first segment is not `tele` is not acted on. */
  lemma ClassifyForeignPrefix(first: string, rest: string)
    requires '/' !in first && first != TELE_PREFIX
    ensures Classify(first + "/" + rest) == Ignored
  {
    SplitSegment(first, rest);
  }

  /** Concrete classifications of the handler. */
  lemma ClassifyJsonExample()
    ensures Classify("tele/dev1/json") == JsonTelemetry("dev1")
  {
    assert "tele/dev1/json" == JsonTopic("dev1");
    ClassifyJsonIff("tele/dev1/json", "dev1");
  }

  /** The device segment is not checked: it may be empty. */
  lemma ClassifyEmptyDeviceExample()
    ensures Classify("tele//json") == JsonTelemetry("")
  {
    assert "tele//json" == JsonTopic("");
    ClassifyJsonIff("tele//json", "");
  }

  /** `tele/dev1/main/gastotal` is the per-field reading `gastotal` of `dev1`. */
  lemma ClassifyFieldExample()
    ensures Classify(FieldTopic("dev1", "gastotal")) == FieldTelemetry("dev1", "gastotal")
  {
    ClassifyFieldIff(FieldTopic("dev1", "gastotal"), "dev1", "gastotal");
  }

  lemma ClassifyIgnoredExamples()
    ensures Classify("tele/dev1/LWT") == Ignored
    ensures Classify("tele/dev1/other") == Ignored
    ensures Classify("homeassistant/sensor/x/config") == Ignored
  {
    assert "tele/dev1/LWT" == LwtTopic("dev1");
    ClassifyLwtIgnored("dev1");
    JoinThree(TELE_PREFIX, "dev1", "other");
    assert "tele/dev1/other" == TELE_PREFIX + "/" + "dev1" + "/" + "other";
    SplitJoin([TELE_PREFIX, "dev1", "other"]);
    assert "homeassistant/sensor/x/config" == "homeassistant" + "/" + "sensor/x/config";
    ClassifyForeignPrefix("homeassistant", "sensor/x/config");
  }
}
