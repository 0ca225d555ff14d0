/**
 * The fixed sensor table of the gas reader and the Home Assistant MQTT
 * discovery announcement built for one (device, sensor) pair. The JSON
 * text the add-on sends is modelled by the record it encodes.
 */
module Sensors {
  import opened Wrappers
  import opened Topics

  /** How a device reports its readings, as recorded by the message handler. */
  datatype Mode = Json | Main

  /** One row of the sensor table: key, display name, unit, device class, state class. */
  datatype SensorDef = SensorDef(
    key: string,
    name: string,
    unit: string,
    deviceClass: Option<string>,
    stateClass: string)

  const SENSOR_DEFS: seq<SensorDef> := [
    SensorDef("gastotal", "Zaehlerstand", "m³", Some("gas"), "total_increasing"),
    SensorDef("value", "Zaehlung seit Nullung", "m³", None, "measurement"),
    SensorDef("today_m3", "Verbrauch Volumen heute", "m³", None, "measurement"),
    SensorDef("today_kwh", "Verbrauch Energie heute", "kWh", Some("energy"), "measurement"),
    SensorDef("yesterday_m3", "Verbrauch Volumen gestern", "m³", None, "measurement"),
    SensorDef("yesterday_kwh", "Verbrauch Energie gestern", "kWh", Some("energy"), "measurement"),
    SensorDef("db_yesterday_m3", "Verbrauch Volumen vorgestern", "m³", None, "measurement"),
    SensorDef("db_yesterday_kwh", "Verbrauch Energie vorgestern", "kWh", Some("energy"), "measurement")
  ]

  /** The `device` object shared by all announcements of one device. */
  datatype Device = Device(identifiers: seq<string>, name: string, manufacturer: string, model: string)

  /** One entry of the `availability` list. */
  datatype Availability = Availability(topic: string, payloadAvailable: string, payloadNotAvailable: string)

  /** The discovery payload; `deviceClass` is None when the key is absent. */
  datatype Payload = Payload(
    name: string,
    uniqueId: string,
    stateTopic: string,
    unitOfMeasurement: string,
    stateClass: string,
    device: Device,
    availability: seq<Availability>,
    valueTemplate: string,
    deviceClass: Option<string>)

  /** One call of the client's publish: topic, payload and the retain flag. */
  datatype Publish = Publish(topic: string, payload: Payload, retain: bool)

  const NODE_PREFIX: string := "smartnetz_gasreader_"
  const MAIN_TEMPLATE: string := "{{ value | float }}"

  function NodeId(dev: string): string {
    NODE_PREFIX + dev
  }

  /** `homeassistant/sensor/<node_id>/<key>/config`. */
  function DiscoveryTopic(dev: string, key: string): string {
    DISCOVERY_PREFIX + "/sensor/" + NodeId(dev) + "/" + key + "/config"
  }

  function DeviceOf(dev: string): Device {
    Device([NodeId(dev)], "Smartnetz Gasreader " + dev, "Smartnetz", "Gasreader")
  }

  function AvailabilityOf(dev: string): seq<Availability> {
    [Availability(LwtTopic(dev), "Online", "Offline")]
  }

  /** The Jinja template for a reading taken out of the consolidated JSON object. */
  function JsonTemplate(key: string): string {
    "{{ (value_json." + key + " | " + "default('0')" + " | string | " + "replace(',', '.')" + " ) | float }}"
  }

  /** `MODE.get(dev) == "main"`: the device was first seen on a per-field topic. */
  predicate PerField(mode: Option<Mode>) {
    mode == Some(Main)
  }

  function StateTopic(dev: string, mode: Option<Mode>, key: string): string {
    if PerField(mode) then FieldTopic(dev, key) else JsonTopic(dev)
  }

  function ValueTemplate(mode: Option<Mode>, key: string): string {
    if PerField(mode) then MAIN_TEMPLATE else JsonTemplate(key)
  }

  /** The discovery payload for sensor `def` of device `dev` whose recorded mode is `mode`. */
  function PayloadOf(dev: string, mode: Option<Mode>, def: SensorDef): Payload {
    Payload(
      def.name,
      NodeId(dev) + "_" + def.key,
      StateTopic(dev, mode, def.key),
      def.unit,
      def.stateClass,
      DeviceOf(dev),
      AvailabilityOf(dev),
      ValueTemplate(mode, def.key),
      if def.deviceClass.Some? && def.deviceClass.value != "" then def.deviceClass else None)
  }

  /** Everything one discovery run publishes, one retained message per table row, in table order. */
  function Announcements(dev: string, mode: Option<Mode>): (ps: seq<Publish>)
    ensures |ps| == |SENSOR_DEFS|
  {
    seq(|SENSOR_DEFS|, i requires 0 <= i < |SENSOR_DEFS| =>
      Publish(DiscoveryTopic(dev, SENSOR_DEFS[i].key), PayloadOf(dev, mode, SENSOR_DEFS[i]), true))
  }

  predicate Contains(s: string, sub: string) {
    exists i, j :: 0 <= i <= j <= |s| && s[i..j] == sub
  }

  // ---------------------------------------------------------------------
  // The sensor table
  // ---------------------------------------------------------------------

  /** Eight rows whose keys are distinct and free of '/', so each is one topic segment. */
  lemma SensorTable()
    ensures |SENSOR_DEFS| == 8
    ensures forall i :: 0 <= i < |SENSOR_DEFS| ==> '/' !in SENSOR_DEFS[i].key
    ensures forall i, j :: 0 <= i < j < |SENSOR_DEFS| ==> SENSOR_DEFS[i].key != SENSOR_DEFS[j].key
  {
  }

  // ---------------------------------------------------------------------
  // One announcement
  // ---------------------------------------------------------------------

  /** What every announcement of a discovery run carries. */
  lemma AnnouncementFields(dev: string, mode: Option<Mode>, i: int)
    requires 0 <= i < |SENSOR_DEFS|
    ensures var p := Announcements(dev, mode)[i]; var def := SENSOR_DEFS[i];
      && p.retain
      && p.topic == DISCOVERY_PREFIX + "/sensor/smartnetz_gasreader_" + dev + "/" + def.key + "/config"
      && p.payload.uniqueId == "smartnetz_gasreader_" + dev + "_" + def.key
      && p.payload.name == def.name
      && p.payload.unitOfMeasurement == def.unit
      && p.payload.stateClass == def.stateClass
      && p.payload.device.identifiers == [NodeId(dev)]
      && p.payload.availability == [Availability(TELE_PREFIX + "/" + dev + "/LWT", "Online", "Offline")]
  {
    var def := SENSOR_DEFS[i];
    assert DiscoveryTopic(dev, def.key)
        == DISCOVERY_PREFIX + "/sensor/smartnetz_gasreader_" + dev + "/" + def.key + "/config";
  }

  /** A device class appears exactly for the table rows that name one. */
  lemma DeviceClassIff(dev: string, mode: Option<Mode>, i: int)
    requires 0 <= i < |SENSOR_DEFS|
    ensures Announcements(dev, mode)[i].payload.deviceClass.Some? <==> SENSOR_DEFS[i].deviceClass.Some?
    ensures Announcements(dev, mode)[i].payload.deviceClass == SENSOR_DEFS[i].deviceClass
  {
  }

  /** The classes of the first four table rows. */
  lemma DeviceClassExamples(dev: string, mode: Option<Mode>)
    ensures var ps := Announcements(dev, mode);
      && ps[0].payload.deviceClass == Some("gas") && ps[0].payload.stateClass == "total_increasing"
      && ps[1].payload.deviceClass == None && ps[1].payload.stateClass == "measurement"
      && ps[2].payload.deviceClass == None
      && ps[3].payload.deviceClass == Some("energy")
  {
  }

  lemma ContainsMiddle(a: string, b: string, c: string)
    ensures Contains(a + b + c, b)
  {
    var s := a + b + c;
    assert s[|a|..|a| + |b|] == b;
  }

  /**
   * The JSON-mode template reads the row's own key from `value_json`,
   * falls back to the literal '0' and turns a decimal comma into a point.
   */
  lemma JsonTemplateMeaning(key: string)
    ensures Contains(JsonTemplate(key), "value_json." + key)
    ensures Contains(JsonTemplate(key), "default('0')")
    ensures Contains(JsonTemplate(key), "replace(',', '.')")
  {
    var t := JsonTemplate(key);
    var head := "{{ (value_json.";
    var d, r := "default('0')", "replace(',', '.')";
    var s1, s2, s3 := " | ", " | string | ", " ) | float }}";
    assert t == "{{ (" + ("value_json." + key) + (s1 + d + s2 + r + s3);
    ContainsMiddle("{{ (", "value_json." + key, s1 + d + s2 + r + s3);
    assert t == (head + key + s1) + d + (s2 + r + s3);
    ContainsMiddle(head + key + s1, d, s2 + r + s3);
    assert t == (head + key + s1 + d + s2) + r + s3;
    ContainsMiddle(head + key + s1 + d + s2, r, s3);
  }

  /** Where Home Assistant reads the state of each sensor, by mode. */
  lemma StateTopicByMode(dev: string, mode: Option<Mode>, i: int)
    requires 0 <= i < |SENSOR_DEFS|
    ensures var p := Announcements(dev, mode)[i].payload; var key := SENSOR_DEFS[i].key;
      if mode == Some(Main) then
        p.stateTopic == TELE_PREFIX + "/" + dev + "/main/" + key && p.valueTemplate == "{{ value | float }}"
      else
        p.stateTopic == TELE_PREFIX + "/" + dev + "/json"
        && Contains(p.valueTemplate, "value_json." + key)
        && Contains(p.valueTemplate, "default('0')")
        && Contains(p.valueTemplate, "replace(',', '.')")
  {
    if mode != Some(Main) {
      JsonTemplateMeaning(SENSOR_DEFS[i].key);
    }
  }

  /**
   * The state topic announced for a sensor is one the classifier routes
   * back to the same device: its per-field topic for that key in per-field
   * mode, its JSON topic otherwise.
   */
  lemma StateTopicRoutesBack(dev: string, mode: Option<Mode>, i: int)
    requires 0 <= i < |SENSOR_DEFS| && '/' !in dev
    ensures var p := Announcements(dev, mode)[i].payload;
      Classify(p.stateTopic)
        == if mode == Some(Main) then FieldTelemetry(dev, SENSOR_DEFS[i].key) else JsonTelemetry(dev)
  {
    var key := SENSOR_DEFS[i].key;
    SensorTable();
    if mode == Some(Main) {
      ClassifyFieldIff(FieldTopic(dev, key), dev, key);
    } else {
      ClassifyJsonIff(JsonTopic(dev), dev);
    }
  }

  /** The availability topic is the device's last will, which the handler does not act on. */
  lemma AvailabilityIgnored(dev: string, mode: Option<Mode>, i: int)
    requires 0 <= i < |SENSOR_DEFS| && '/' !in dev
    ensures Classify(Announcements(dev, mode)[i].payload.availability[0].topic) == Ignored
  {
    ClassifyLwtIgnored(dev);
  }

  // ---------------------------------------------------------------------
  // Discovery topics
  // ---------------------------------------------------------------------

  lemma DiscoveryTopicSegments(dev: string, key: string)
    requires '/' !in dev && '/' !in key
    ensures Split(DiscoveryTopic(dev, key)) == [DISCOVERY_PREFIX, "sensor", NodeId(dev), key, "config"]
  {
    var parts := [DISCOVERY_PREFIX, "sensor", NodeId(dev), key, "config"];
    assert '/' !in NodeId(dev) by {
      assert forall k :: 0 <= k < |NodeId(dev)| ==> NodeId(dev)[k] == (NODE_PREFIX + dev)[k];
    }
    assert parts[1..] == [parts[1], parts[2], parts[3], parts[4]];
    JoinFour(parts[1], parts[2], parts[3], parts[4]);
    assert Join(parts) == parts[0] + "/" + Join(parts[1..]);
    assert DiscoveryTopic(dev, key) == parts[0] + "/" + (parts[1] + "/" + parts[2] + "/" + parts[3] + "/" + parts[4]);
    SplitJoin(parts);
  }

  /** Distinct (device, key) pairs never share a discovery topic. */
  lemma DiscoveryTopicInjective(dev1: string, key1: string, dev2: string, key2: string)
    requires '/' !in dev1 && '/' !in key1 && '/' !in dev2 && '/' !in key2
    requires DiscoveryTopic(dev1, key1) == DiscoveryTopic(dev2, key2)
    ensures dev1 == dev2 && key1 == key2
  {
    DiscoveryTopicSegments(dev1, key1);
    DiscoveryTopicSegments(dev2, key2);
    assert NodeId(dev1) == NodeId(dev2);
    assert dev1 == NodeId(dev1)[|NODE_PREFIX|..];
    assert dev2 == NodeId(dev2)[|NODE_PREFIX|..];
  }

  /** One discovery run publishes eight different topics. */
  lemma AnnouncementTopicsDistinct(dev: string, mode: Option<Mode>, i: int, j: int)
    requires '/' !in dev
    requires 0 <= i < j < |SENSOR_DEFS|
    ensures Announcements(dev, mode)[i].topic != Announcements(dev, mode)[j].topic
  {
    SensorTable();
    if Announcements(dev, mode)[i].topic == Announcements(dev, mode)[j].topic {
      DiscoveryTopicInjective(dev, SENSOR_DEFS[i].key, dev, SENSOR_DEFS[j].key);
    }
  }

  /** A discovery topic is never classified as telemetry, so announcing cannot trigger discovery. */
  lemma DiscoveryTopicIgnored(dev: string, key: string)
    ensures Classify(DiscoveryTopic(dev, key)) == Ignored
  {
    var rest := "sensor/" + NodeId(dev) + "/" + key + "/config";
    assert DiscoveryTopic(dev, key) == DISCOVERY_PREFIX + "/" + rest;
    ClassifyForeignPrefix(DISCOVERY_PREFIX, rest);
  }
}
