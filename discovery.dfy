/**
 * The discovery decision engine: the set of devices already announced,
 * the telemetry mode recorded per device and the messages published so
 * far. `Step` is the specification of one message callback; `Registry`
 * is the stateful object whose methods are proved against it.
 */
module Discovery {
  import opened Wrappers
  import opened Topics
  import opened Sensors

  /** DISCOVERED, MODE, and the publishes the client has been asked for, in order. */
  datatype State = State(discovered: set<string>, mode: map<string, Mode>, outbox: seq<Publish>)

  /** Process start: nothing discovered, no mode recorded, nothing published. */
  const Initial: State := State({}, map[], [])

  /** One inbound MQTT message; the payload as decoded JSON keys, None if decoding fails. */
  datatype Message = Message(topic: string, payload: Option<set<string>>)

  /** `MODE.get(dev)`. */
  function ModeOf(mode: map<string, Mode>, dev: string): Option<Mode> {
    if dev in mode then Some(mode[dev]) else None
  }

  /** Register an unseen device and publish its announcements; a seen device is left alone. */
  function Discover(s: State, dev: string): State {
    if dev in s.discovered then s
    else State(s.discovered + {dev}, s.mode, s.outbox + Announcements(dev, ModeOf(s.mode, dev)))
  }

  /** The effect of one message callback on the engine's state. */
  function Step(s: State, topic: string, payload: Option<set<string>>): State {
    match Classify(topic)
    case JsonTelemetry(dev) =>
      if IsValidJson(payload) then Discover(s.(mode := s.mode[dev := Json]), dev) else s
    case FieldTelemetry(dev, key) =>
      if IsTriggerKey(key) then
        Discover(s.(mode := if dev in s.mode then s.mode else s.mode[dev := Main]), dev)
      else s
    case Ignored => s
  }

  /** Messages dispatched one at a time, in order. */
  function Run(s: State, msgs: seq<Message>): State
    decreases |msgs|
  {
    if msgs == [] then s else Run(Step(s, msgs[0].topic, msgs[0].payload), msgs[1..])
  }

  /** `topic` is the discovery topic of some sensor row of some device in `devs`. */
  predicate IsDiscoveryTopicOf(devs: set<string>, topic: string) {
    exists d, k :: d in devs && 0 <= k < |SENSOR_DEFS| && topic == DiscoveryTopic(d, SENSOR_DEFS[k].key)
  }

  /** Some publish of `outbox` went to the discovery topic of sensor `key` of device `dev`. */
  predicate Announced(outbox: seq<Publish>, dev: string, key: string) {
    exists i :: 0 <= i < |outbox| && outbox[i].topic == DiscoveryTopic(dev, key)
  }

  /**
   * The outbox holds, for every discovered device, one retained publish on
   * each of its eight discovery topics, and nothing else: every publish
   * belongs to a discovered device, no topic is published twice, and none
   * is a topic the handler would act on.
   */
  predicate OutboxMatches(discovered: set<string>, outbox: seq<Publish>) {
    && |outbox| == |SENSOR_DEFS| * |discovered|
    && (forall i :: 0 <= i < |outbox| ==> outbox[i].retain && Classify(outbox[i].topic) == Ignored)
    && (forall i :: 0 <= i < |outbox| ==> IsDiscoveryTopicOf(discovered, outbox[i].topic))
    && (forall i, j :: 0 <= i < j < |outbox| ==> outbox[i].topic != outbox[j].topic)
    && (forall d, k :: d in discovered && 0 <= k < |SENSOR_DEFS| ==> Announced(outbox, d, SENSOR_DEFS[k].key))
  }

  /**
   * What the engine keeps true: a mode is recorded exactly for the
   * discovered devices, device ids are single topic segments, and the
   * outbox holds exactly one announcement per sensor of each discovered
   * device.
   */
  predicate Consistent(s: State) {
    && s.mode.Keys == s.discovered
    && (forall d :: d in s.discovered ==> '/' !in d)
    && OutboxMatches(s.discovered, s.outbox)
  }

  // ---------------------------------------------------------------------
  // Messages that change nothing
  // ---------------------------------------------------------------------

  /** A topic that is neither a JSON nor a per-field telemetry topic has no effect. */
  lemma NonTelemetryUnchanged(s: State, topic: string, payload: Option<set<string>>)
    requires forall dev :: '/' !in dev ==> topic != JsonTopic(dev)
    requires forall dev, key :: '/' !in dev && '/' !in key ==> topic != FieldTopic(dev, key)
    ensures Step(s, topic, payload) == s
  {
    ClassifyIgnoredIff(topic);
  }

  /** Last-will messages have no effect. */
  lemma LwtUnchanged(s: State, dev: string, payload: Option<set<string>>)
    requires '/' !in dev
    ensures Step(s, LwtTopic(dev), payload) == s
  {
    ClassifyLwtIgnored(dev);
  }

  /** The engine's own announcements have no effect when they come back to it. */
  lemma DiscoveryTopicUnchanged(s: State, dev: string, key: string, payload: Option<set<string>>)
    ensures Step(s, DiscoveryTopic(dev, key), payload) == s
  {
    DiscoveryTopicIgnored(dev, key);
  }

  /** A JSON message that does not decode, or lacks `gastotal` or `value`, has no effect. */
  lemma JsonRejectedUnchanged(s: State, dev: string, payload: Option<set<string>>)
    requires '/' !in dev
    requires payload == None || "gastotal" !in payload.value || "value" !in payload.value
    ensures Step(s, JsonTopic(dev), payload) == s
  {
    ClassifyJsonIff(JsonTopic(dev), dev);
  }

  /** `{"value": 12.3}` on `tele/dev1/json` is rejected. */
  lemma MissingGastotalExample(s: State)
    ensures Step(s, JsonTopic("dev1"), Some({"value"})) == s
  {
    JsonRejectedUnchanged(s, "dev1", Some({"value"}));
  }

  /** A per-field message for any key other than `gastotal` or `value` has no effect. */
  lemma FieldOtherKeyUnchanged(s: State, dev: string, key: string, payload: Option<set<string>>)
    requires '/' !in dev && '/' !in key
    requires key != "gastotal" && key != "value"
    ensures Step(s, FieldTopic(dev, key), payload) == s
  {
    ClassifyFieldIff(FieldTopic(dev, key), dev, key);
  }

  // ---------------------------------------------------------------------
  // Messages that trigger discovery
  // ---------------------------------------------------------------------

  /**
   * The first valid JSON message of a device records JSON mode, adds the
   * device and publishes eight retained announcements, one per table row
   * in table order, to the row's discovery topic.
   */
  lemma JsonFirstDiscovery(s: State, dev: string, payload: Option<set<string>>)
    requires '/' !in dev && IsValidJson(payload) && dev !in s.discovered
    ensures var t := Step(s, JsonTopic(dev), payload);
      && t.discovered == s.discovered + {dev}
      && t.mode == s.mode[dev := Json]
      && t.outbox == s.outbox + Announcements(dev, Some(Json))
      && |t.outbox| == |s.outbox| + 8
      && forall i :: 0 <= i < 8 ==>
           t.outbox[|s.outbox| + i].topic == DiscoveryTopic(dev, SENSOR_DEFS[i].key)
           && t.outbox[|s.outbox| + i].retain
           && t.outbox[|s.outbox| + i].payload.stateTopic == JsonTopic(dev)
  {
    ClassifyJsonIff(JsonTopic(dev), dev);
  }

  /** A further valid JSON message publishes nothing, but switches the mode to JSON. */
  lemma JsonRepeat(s: State, dev: string, payload: Option<set<string>>)
    requires '/' !in dev && IsValidJson(payload) && dev in s.discovered
    ensures var t := Step(s, JsonTopic(dev), payload);
      t == s.(mode := s.mode[dev := Json])
  {
    ClassifyJsonIff(JsonTopic(dev), dev);
  }

  /**
   * The first `gastotal`/`value` field message of an unseen device records
   * per-field mode unless a mode exists, adds the device and publishes its
   * announcements under the mode now recorded.
   */
  lemma FieldFirstDiscovery(s: State, dev: string, key: string, payload: Option<set<string>>)
    requires '/' !in dev && '/' !in key && IsTriggerKey(key) && dev !in s.discovered
    ensures var t := Step(s, FieldTopic(dev, key), payload);
      && t.discovered == s.discovered + {dev}
      && t.mode == (if dev in s.mode then s.mode else s.mode[dev := Main])
      && t.outbox == s.outbox + Announcements(dev, Some(t.mode[dev]))
      && |t.outbox| == |s.outbox| + 8
      && forall i :: 0 <= i < 8 ==>
           t.outbox[|s.outbox| + i].topic == DiscoveryTopic(dev, SENSOR_DEFS[i].key)
           && t.outbox[|s.outbox| + i].retain
  {
    ClassifyFieldIff(FieldTopic(dev, key), dev, key);
  }

  /**
   * Where a mode is recorded exactly for the discovered devices (as in every
   * consistent state), an unseen device has no mode, so it is announced with
   * per-field state topics.
   */
  lemma FieldFirstDiscoveryMain(s: State, dev: string, key: string, payload: Option<set<string>>)
    requires s.mode.Keys == s.discovered
    requires '/' !in dev && '/' !in key && IsTriggerKey(key) && dev !in s.discovered
    ensures var t := Step(s, FieldTopic(dev, key), payload);
      && t.mode == s.mode[dev := Main]
      && t.outbox == s.outbox + Announcements(dev, Some(Main))
      && forall i :: 0 <= i < 8 ==>
           t.outbox[|s.outbox| + i].payload.stateTopic == FieldTopic(dev, SENSOR_DEFS[i].key)
  {
    FieldFirstDiscovery(s, dev, key, payload);
  }

  /** A further `gastotal`/`value` field message publishes nothing and keeps an existing mode. */
  lemma FieldRepeat(s: State, dev: string, key: string, payload: Option<set<string>>)
    requires '/' !in dev && '/' !in key && IsTriggerKey(key) && dev in s.discovered
    ensures var t := Step(s, FieldTopic(dev, key), payload);
      && t.discovered == s.discovered
      && t.outbox == s.outbox
      && t.mode == (if dev in s.mode then s.mode else s.mode[dev := Main])
  {
    ClassifyFieldIff(FieldTopic(dev, key), dev, key);
  }

  // ---------------------------------------------------------------------
  // Global facts about steps and runs
  // ---------------------------------------------------------------------

  /** Discovered devices and recorded modes are never forgotten; publishes are only appended. */
  lemma StepMonotone(s: State, topic: string, payload: Option<set<string>>)
    ensures var t := Step(s, topic, payload);
      && s.discovered <= t.discovered
      && s.mode.Keys <= t.mode.Keys
      && s.outbox <= t.outbox
  {
  }

  /** A message publishes either nothing or one full set of announcements, for a newly added device. */
  lemma StepPublishes(s: State, topic: string, payload: Option<set<string>>)
    ensures var t := Step(s, topic, payload);
      || (t.discovered == s.discovered && t.outbox == s.outbox)
      || exists dev, m :: dev !in s.discovered
           && t.discovered == s.discovered + {dev}
           && t.outbox == s.outbox + Announcements(dev, Some(m))
  {
    var t := Step(s, topic, payload);
    match Classify(topic)
    case JsonTelemetry(dev) =>
      if IsValidJson(payload) && dev !in s.discovered {
        assert t.outbox == s.outbox + Announcements(dev, Some(Json));
      }
    case FieldTelemetry(dev, key) =>
      if IsTriggerKey(key) && dev !in s.discovered {
        var m := if dev in s.mode then s.mode else s.mode[dev := Main];
        assert t.outbox == s.outbox + Announcements(dev, Some(m[dev]));
      }
    case Ignored =>
  }

  lemma AnnouncementsConsistent(dev: string, mode: Option<Mode>)
    ensures forall i :: 0 <= i < |SENSOR_DEFS| ==>
      Announcements(dev, mode)[i].retain && Classify(Announcements(dev, mode)[i].topic) == Ignored
  {
    forall i | 0 <= i < |SENSOR_DEFS|
      ensures Classify(Announcements(dev, mode)[i].topic) == Ignored
    {
      DiscoveryTopicIgnored(dev, SENSOR_DEFS[i].key);
    }
  }

  /** After appending an unseen device's announcements, every publish still belongs to a discovered device. */
  lemma AppendOwned(discovered: set<string>, outbox: seq<Publish>, dev: string, mode: Option<Mode>)
    requires forall i :: 0 <= i < |outbox| ==> IsDiscoveryTopicOf(discovered, outbox[i].topic)
    ensures var t := outbox + Announcements(dev, mode);
      forall i :: 0 <= i < |t| ==> IsDiscoveryTopicOf(discovered + {dev}, t[i].topic)
  {
    var a := Announcements(dev, mode);
    var t := outbox + a;
    var n := |outbox|;
    forall i | 0 <= i < |t|
      ensures IsDiscoveryTopicOf(discovered + {dev}, t[i].topic)
    {
      if i < n {
        assert t[i] == outbox[i];
        var d, k :| d in discovered && 0 <= k < |SENSOR_DEFS| && outbox[i].topic == DiscoveryTopic(d, SENSOR_DEFS[k].key);
        assert d in discovered + {dev};
      } else {
        assert t[i] == a[i - n];
        assert t[i].topic == DiscoveryTopic(dev, SENSOR_DEFS[i - n].key);
      }
    }
  }

  /** Appending an unseen device's announcements publishes no topic twice. */
  lemma AppendDistinct(discovered: set<string>, outbox: seq<Publish>, dev: string, mode: Option<Mode>)
    requires '/' !in dev && dev !in discovered
    requires forall d :: d in discovered ==> '/' !in d
    requires forall i :: 0 <= i < |outbox| ==> IsDiscoveryTopicOf(discovered, outbox[i].topic)
    requires forall i, j :: 0 <= i < j < |outbox| ==> outbox[i].topic != outbox[j].topic
    ensures var t := outbox + Announcements(dev, mode);
      forall i, j :: 0 <= i < j < |t| ==> t[i].topic != t[j].topic
  {
    var a := Announcements(dev, mode);
    var t := outbox + a;
    var n := |outbox|;
    SensorTable();
    forall i, j | 0 <= i < j < |t|
      ensures t[i].topic != t[j].topic
    {
      if j < n {
        assert t[i] == outbox[i] && t[j] == outbox[j];
      } else if i >= n {
        assert t[i] == a[i - n] && t[j] == a[j - n];
        AnnouncementTopicsDistinct(dev, mode, i - n, j - n);
      } else {
        assert t[i] == outbox[i] && t[j] == a[j - n];
        assert IsDiscoveryTopicOf(discovered, outbox[i].topic);
        var d, k :| d in discovered && 0 <= k < |SENSOR_DEFS| && outbox[i].topic == DiscoveryTopic(d, SENSOR_DEFS[k].key);
        assert t[j].topic == DiscoveryTopic(dev, SENSOR_DEFS[j - n].key);
        if t[i].topic == t[j].topic {
          DiscoveryTopicInjective(d, SENSOR_DEFS[k].key, dev, SENSOR_DEFS[j - n].key);
          assert false;
        }
      }
    }
  }

  /** After appending a device's announcements, every sensor of every device seen so far is announced. */
  lemma AppendAnnouncesAll(discovered: set<string>, outbox: seq<Publish>, dev: string, mode: Option<Mode>)
    requires forall d, k :: d in discovered && 0 <= k < |SENSOR_DEFS| ==> Announced(outbox, d, SENSOR_DEFS[k].key)
    ensures var t := outbox + Announcements(dev, mode);
      forall d, k :: d in discovered + {dev} && 0 <= k < |SENSOR_DEFS| ==> Announced(t, d, SENSOR_DEFS[k].key)
  {
    var a := Announcements(dev, mode);
    var t := outbox + a;
    var n := |outbox|;
    forall d, k | d in discovered + {dev} && 0 <= k < |SENSOR_DEFS|
      ensures Announced(t, d, SENSOR_DEFS[k].key)
    {
      if d == dev {
        assert t[n + k] == a[k];
        assert t[n + k].topic == DiscoveryTopic(dev, SENSOR_DEFS[k].key);
      } else {
        assert Announced(outbox, d, SENSOR_DEFS[k].key);
        var i :| 0 <= i < n && outbox[i].topic == DiscoveryTopic(d, SENSOR_DEFS[k].key);
        assert t[i] == outbox[i];
      }
    }
  }

  /** An unseen device's announcements extend a matching outbox to one that matches with the device added. */
  lemma DiscoverOutboxMatches(discovered: set<string>, outbox: seq<Publish>, dev: string, mode: Option<Mode>)
    requires '/' !in dev && dev !in discovered
    requires forall d :: d in discovered ==> '/' !in d
    requires OutboxMatches(discovered, outbox)
    ensures OutboxMatches(discovered + {dev}, outbox + Announcements(dev, mode))
  {
    var a := Announcements(dev, mode);
    var t := outbox + a;
    var n := |outbox|;
    assert |discovered + {dev}| == |discovered| + 1;
    AnnouncementsConsistent(dev, mode);
    forall i | 0 <= i < |t|
      ensures t[i].retain && Classify(t[i].topic) == Ignored
    {
      if i >= n {
        assert t[i] == a[i - n];
      }
    }
    AppendOwned(discovered, outbox, dev, mode);
    AppendDistinct(discovered, outbox, dev, mode);
    AppendAnnouncesAll(discovered, outbox, dev, mode);
  }

  lemma DiscoverConsistent(s: State, dev: string)
    requires '/' !in dev
    requires s.mode.Keys == s.discovered + {dev}
    requires forall d :: d in s.discovered ==> '/' !in d
    requires OutboxMatches(s.discovered, s.outbox)
    ensures Consistent(Discover(s, dev))
  {
    if dev !in s.discovered {
      DiscoverOutboxMatches(s.discovered, s.outbox, dev, ModeOf(s.mode, dev));
    }
  }

  /** Every message callback keeps the engine consistent. */
  lemma StepConsistent(s: State, topic: string, payload: Option<set<string>>)
    requires Consistent(s)
    ensures Consistent(Step(s, topic, payload))
  {
    var e := Classify(topic);
    if e.JsonTelemetry? && IsValidJson(payload) {
      var s' := s.(mode := s.mode[e.dev := Json]);
      assert Step(s, topic, payload) == Discover(s', e.dev);
      DiscoverConsistent(s', e.dev);
    } else if e.FieldTelemetry? && IsTriggerKey(e.key) {
      var s' := s.(mode := if e.dev in s.mode then s.mode else s.mode[e.dev := Main]);
      assert Step(s, topic, payload) == Discover(s', e.dev);
      DiscoverConsistent(s', e.dev);
    } else {
      assert Step(s, topic, payload) == s;
    }
  }

  /**
   * In a consistent state each sensor of each discovered device was
   * announced exactly once, and every publish belongs to a discovered
   * device.
   */
  lemma ConsistentAnnouncedOnce(s: State, dev: string, k: int)
    requires Consistent(s)
    requires dev in s.discovered && 0 <= k < |SENSOR_DEFS|
    ensures exists i :: 0 <= i < |s.outbox| && s.outbox[i].topic == DiscoveryTopic(dev, SENSOR_DEFS[k].key)
    ensures forall i, j ::
              (0 <= i < |s.outbox| && 0 <= j < |s.outbox|
               && s.outbox[i].topic == DiscoveryTopic(dev, SENSOR_DEFS[k].key)
               && s.outbox[j].topic == DiscoveryTopic(dev, SENSOR_DEFS[k].key)) ==> i == j
  {
    assert Announced(s.outbox, dev, SENSOR_DEFS[k].key);
  }

  /** Announcing one device twice and another never is not a consistent outbox. */
  lemma DoubleAnnouncementInconsistent(m: Option<Mode>)
    ensures !Consistent(State({"a", "b"}, map["a" := Json, "b" := Json], Announcements("a", m) + Announcements("a", m)))
  {
    var out := Announcements("a", m) + Announcements("a", m);
    assert out[0] == out[8];
  }

  /**
   * Over any sequence of messages the engine stays consistent, devices are
   * only added and publishes only appended: each sensor of each
   * discovered device is announced exactly once.
   */
  lemma {:induction false} RunConsistent(s: State, msgs: seq<Message>)
    requires Consistent(s)
    ensures var t := Run(s, msgs);
      && Consistent(t)
      && s.discovered <= t.discovered
      && s.outbox <= t.outbox
      && |t.outbox| == 8 * |t.discovered|
    decreases |msgs|
  {
    if msgs != [] {
      var s' := Step(s, msgs[0].topic, msgs[0].payload);
      StepConsistent(s, msgs[0].topic, msgs[0].payload);
      StepMonotone(s, msgs[0].topic, msgs[0].payload);
      RunConsistent(s', msgs[1..]);
    }
  }

  /** From process start, the engine is consistent after any run. */
  lemma InitialRunConsistent(msgs: seq<Message>)
    ensures Consistent(Run(Initial, msgs))
  {
    RunConsistent(Initial, msgs);
  }

  /**
   * A device first seen on a per-field topic and then on the JSON topic
   * ends in JSON mode, yet keeps the per-field announcements retained from
   * its discovery: nothing is republished.
   */
  lemma FieldThenJson(dev: string, payload: Option<set<string>>)
    requires '/' !in dev && IsValidJson(payload)
    ensures var t := Run(Initial, [Message(FieldTopic(dev, "gastotal"), None), Message(JsonTopic(dev), payload)]);
      && t.discovered == {dev}
      && t.mode == map[dev := Json]
      && t.outbox == Announcements(dev, Some(Main))
  {
    var msgs := [Message(FieldTopic(dev, "gastotal"), None), Message(JsonTopic(dev), payload)];
    FieldFirstDiscovery(Initial, dev, "gastotal", None);
    var s1 := Step(Initial, FieldTopic(dev, "gastotal"), None);
    assert s1.mode == map[dev := Main];
    JsonRepeat(s1, dev, payload);
    var s2 := Step(s1, JsonTopic(dev), payload);
    assert msgs[1..] == [Message(JsonTopic(dev), payload)];
    assert msgs[1..][1..] == [];
    assert Run(Initial, msgs) == Run(s1, msgs[1..]);
    assert Run(s1, msgs[1..]) == Run(s2, []);
    assert s1.mode[dev := Json] == map[dev := Json];
  }

  // ---------------------------------------------------------------------
  // The message handler as an object with the process-wide state
  // ---------------------------------------------------------------------

  class Registry {
    var discovered: set<string>
    var mode: map<string, Mode>
    var outbox: seq<Publish>

    function Snapshot(): State
      reads this
    {
      State(discovered, mode, outbox)
    }

    constructor ()
      ensures Snapshot() == Initial
    {
      discovered, mode, outbox := {}, map[], [];
    }

    /** Publish one retained announcement per sensor row, in table order. */
    method PublishDiscovery(dev: string)
      modifies this`outbox
      ensures outbox == old(outbox) + Announcements(dev, ModeOf(mode, dev))
    {
      var nodeId := NodeId(dev);
      var device := Device([nodeId], "Smartnetz Gasreader " + dev, "Smartnetz", "Gasreader");
      var availability := [Availability(LwtTopic(dev), "Online", "Offline")];
      ghost var expected := Announcements(dev, ModeOf(mode, dev));
      for i := 0 to |SENSOR_DEFS|
        invariant outbox == old(outbox) + expected[..i]
      {
        var SensorDef(key, name, unit, devClass, stateClass) := SENSOR_DEFS[i];
        var discoveryTopic := DISCOVERY_PREFIX + "/sensor/" + nodeId + "/" + key + "/config";
        var stateTopic, valueTemplate;
        if dev in mode && mode[dev] == Main {
          stateTopic := FieldTopic(dev, key);
          valueTemplate := MAIN_TEMPLATE;
        } else {
          stateTopic := JsonTopic(dev);
          valueTemplate := JsonTemplate(key);
        }
        var payload := Payload(name, nodeId + "_" + key, stateTopic, unit, stateClass,
                               device, availability, valueTemplate, None);
        if devClass.Some? && devClass.value != "" {
          payload := payload.(deviceClass := devClass);
        }
        outbox := outbox + [Publish(discoveryTopic, payload, true)];
        assert expected[..i + 1] == expected[..i] + [expected[i]];
      }
      assert expected[..|SENSOR_DEFS|] == expected;
    }

    /** The MQTT message callback. */
    method OnMessage(topic: string, payload: Option<set<string>>)
      modifies this
      ensures Snapshot() == Step(old(Snapshot()), topic, payload)
      ensures Consistent(old(Snapshot())) ==> Consistent(Snapshot())
    {
      ghost var before := Snapshot();
      var parts := Split(topic);
      if |parts| == 3 && parts[0] == TELE_PREFIX && parts[2] == "json" {
        var dev := parts[1];
        // A payload that does not decode is dropped.
        if payload.Some? {
          var data := payload.value;
          if "gastotal" in data && "value" in data {
            mode := mode[dev := Json];
            if dev !in discovered {
              discovered := discovered + {dev};
              PublishDiscovery(dev);
            }
          }
        }
      } else if |parts| == 4 && parts[0] == TELE_PREFIX && parts[2] == "main" {
        var dev, key := parts[1], parts[3];
        if key == "gastotal" || key == "value" {
          if dev !in mode {
            mode := mode[dev := Main];
          }
          if dev !in discovered {
            discovered := discovered + {dev};
            PublishDiscovery(dev);
          }
        }
      }
      if Consistent(before) {
        StepConsistent(before, topic, payload);
      }
    }
  }
}
