# Smartnetz gas reader discovery: a Dafny model of the discovery engine

The add-on listens on MQTT for telemetry from Smartnetz gas readers
(`tele/<device>/json` and `tele/<device>/main/<key>`). The first time a
device sends a usable reading, the add-on announces that device's eight
sensors to Home Assistant through MQTT discovery. Each announcement is a
retained message on `homeassistant/sensor/smartnetz_gasreader_<device>/<key>/config`.

This project models the decision engine of `smartnetz_gasreader_discovery/app.py`:

- `topics.dfy`
  - Module `Wrappers`: an `Option` datatype.
  - Module `Topics`:
    - the topic prefixes and the three subscription filters;
    - Python's `str.split("/")` as `Split`, with `Join` as its inverse;
    - the topics a device publishes on;
    - the structural classifier of the message callback (`Classify`);
    - the payload checks.
- `sensors.dfy`, module `Sensors`:
  - the `SENSOR_DEFS` table;
  - the discovery payload as a record: the `device` object, the `availability` list, the state topic and value template chosen by the recorded mode, and the optional `device_class`;
  - `Announcements`, the eight retained publishes of one discovery run, in table order.
- `discovery.dfy`, module `Discovery`:
  - `State` holds `DISCOVERED`, `MODE` and the sequence of publishes made so far (the outbox);
  - `Step` specifies one message callback and `Run` a sequence of callbacks;
  - the invariant `Consistent`;
  - class `Registry`, the stateful handler. It holds the three fields. `OnMessage` follows the callback branch by branch. `PublishDiscovery` builds each payload in a loop over the table, adding `device_class` conditionally, and appends one retained publish per row. Both are proved against `Step` and `Announcements`.

The JSON payload is modelled as already decoded: `Some(keys)` is the set of
keys of the decoded object and `None` is a decoding failure. The MQTT
client is the outbox: each `client.publish(topic, json.dumps(payload), retain=True)`
becomes one `Publish(topic, payload, true)` appended to it.

Behaviour of the code worth knowing:

- A valid JSON message always sets the mode to JSON (`MODE[dev] = "json"`), even over an earlier per-field mode. Only per-field messages use first-wins (`setdefault`). Once a device is discovered, a later mode change does not republish. The per-field announcements stay retained; see `Discovery.FieldThenJson`.
- There is no separate branch for last-will topics. `tele/<dev>/LWT` falls through like any other topic.
- The device segment is not checked. `tele//json` is handled for the empty device `""`.
- `today_kwh` (like the other `*_kwh` rows) has the device class `energy`. The rows without a class are `value` and the `*_m3` rows.
- Per-field topics are always handled; there is no switch to turn them off. Nothing is republished on reconnect.

## Model

| member | source | states |
|---|---|---|
| `Topics.Split` | smartnetz_gasreader_discovery/app.py:120 | splitting a topic gives at least one segment, and no segment contains '/' |
| `Topics.JoinSplit` | smartnetz_gasreader_discovery/app.py:120 | joining the segments of any topic with '/' gives the topic back |
| `Topics.SplitJoin` | smartnetz_gasreader_discovery/app.py:120 | splitting '/'-free segments joined with '/' gives exactly those segments back |
| `Topics.JsonTopicSegments` | smartnetz_gasreader_discovery/app.py:125 | `tele/<dev>/json` splits into the three segments `tele`, dev, `json` when dev has no '/' |
| `Topics.FieldTopicSegments` | smartnetz_gasreader_discovery/app.py:144 | `tele/<dev>/main/<key>` splits into the four segments `tele`, dev, `main`, key |
| `Topics.Classify` | smartnetz_gasreader_discovery/app.py:119-146 | the device (and the key) it extracts are single segments, with no '/' |
| `Topics.ClassifyJsonIff` | smartnetz_gasreader_discovery/app.py:125-126 | a topic takes the JSON path for device d if and only if it is `tele/<d>/json` with d free of '/' |
| `Topics.ClassifyFieldIff` | smartnetz_gasreader_discovery/app.py:144-146 | a topic takes the per-field path for (d, k) if and only if it is `tele/<d>/main/<k>` with d and k free of '/' |
| `Topics.ClassifyIgnoredIff` | smartnetz_gasreader_discovery/app.py:119-154 | a topic falls through if and only if it is neither a JSON topic nor a per-field topic of any device |
| `Topics.ClassifyLwtIgnored` | smartnetz_gasreader_discovery/app.py:125-154 | a device's `tele/<dev>/LWT` topic falls through |
| `Topics.ClassifyForeignPrefix` | smartnetz_gasreader_discovery/app.py:125-144 | a topic whose first segment is not `tele` falls through |
| `Topics.ClassifyJsonExample` | smartnetz_gasreader_discovery/app.py:125-126 | `tele/dev1/json` takes the JSON path for `dev1` |
| `Topics.ClassifyEmptyDeviceExample` | smartnetz_gasreader_discovery/app.py:125-126 | `tele//json` takes the JSON path for the empty device |
| `Topics.ClassifyFieldExample` | smartnetz_gasreader_discovery/app.py:144-146 | `tele/dev1/main/gastotal` takes the per-field path for `dev1`, key `gastotal` |
| `Topics.ClassifyIgnoredExamples` | smartnetz_gasreader_discovery/app.py:125-154 | `tele/dev1/LWT`, `tele/dev1/other` and `homeassistant/sensor/x/config` fall through |
| `Sensors.Announcements` | smartnetz_gasreader_discovery/app.py:76-103 | one discovery run yields exactly one publish per table row |
| `Sensors.SensorTable` | smartnetz_gasreader_discovery/app.py:44-53 | the table has eight rows, and their keys are distinct and free of '/' |
| `Sensors.AnnouncementFields` | smartnetz_gasreader_discovery/app.py:61-103 | the i-th publish of a run is retained and goes to `homeassistant/sensor/smartnetz_gasreader_<dev>/<key>/config`; its `unique_id` is `smartnetz_gasreader_<dev>_<key>`; name, unit and state class are the row's; `device.identifiers` is `[node_id]`; availability is one entry `tele/<dev>/LWT` with `Online`/`Offline` |
| `Sensors.DeviceClassIff` | smartnetz_gasreader_discovery/app.py:100-101 | an announcement carries a device class if and only if its row names one, and then the same one |
| `Sensors.DeviceClassExamples` | smartnetz_gasreader_discovery/app.py:45-48 | `gastotal` has class `gas` and state class `total_increasing`; `value` and `today_m3` have no class; `today_kwh` has `energy` |
| `Sensors.JsonTemplateMeaning` | smartnetz_gasreader_discovery/app.py:84-87 | the JSON-mode template reads `value_json.<key>`, contains `default('0')` and contains `replace(',', '.')` |
| `Sensors.StateTopicByMode` | smartnetz_gasreader_discovery/app.py:79-87 | in per-field mode the state topic is `tele/<dev>/main/<key>` with the plain `value`-to-float template; otherwise the state topic is `tele/<dev>/json` with the key-specific JSON template |
| `Sensors.StateTopicRoutesBack` | smartnetz_gasreader_discovery/app.py:79-87 | the announced state topic is classified back as telemetry of the same device: per-field for that key, or JSON |
| `Sensors.AvailabilityIgnored` | smartnetz_gasreader_discovery/app.py:70-74 | the announced availability topic is one the handler does not act on |
| `Sensors.DiscoveryTopicSegments` | smartnetz_gasreader_discovery/app.py:77 | a discovery topic splits into `homeassistant`, `sensor`, node id, key, `config` |
| `Sensors.DiscoveryTopicInjective` | smartnetz_gasreader_discovery/app.py:77 | different (device, key) pairs never share a discovery topic |
| `Sensors.AnnouncementTopicsDistinct` | smartnetz_gasreader_discovery/app.py:76-77 | the eight publishes of one run go to eight different topics |
| `Sensors.DiscoveryTopicIgnored` | smartnetz_gasreader_discovery/app.py:77 | a discovery topic is never classified as telemetry |
| `Discovery.NonTelemetryUnchanged` | smartnetz_gasreader_discovery/app.py:119-154 | a topic that is neither a JSON nor a per-field topic leaves discovered set, modes and outbox unchanged |
| `Discovery.LwtUnchanged` | smartnetz_gasreader_discovery/app.py:125-154 | a last-will message changes nothing |
| `Discovery.DiscoveryTopicUnchanged` | smartnetz_gasreader_discovery/app.py:125-154 | a message on a discovery topic changes nothing |
| `Discovery.JsonRejectedUnchanged` | smartnetz_gasreader_discovery/app.py:127-133 | a JSON message that fails to decode, or lacks `gastotal` or `value`, changes nothing |
| `Discovery.MissingGastotalExample` | smartnetz_gasreader_discovery/app.py:133 | `{"value": ...}` on `tele/dev1/json` changes nothing |
| `Discovery.FieldOtherKeyUnchanged` | smartnetz_gasreader_discovery/app.py:148 | a per-field message with a key other than `gastotal`/`value` changes nothing |
| `Discovery.JsonFirstDiscovery` | smartnetz_gasreader_discovery/app.py:133-138 | the first valid JSON message of an unseen device sets its mode to JSON and adds it to the discovered set; it appends the device's eight announcements, in table order, retained, to the row discovery topics, with state topic `tele/<dev>/json` |
| `Discovery.JsonRepeat` | smartnetz_gasreader_discovery/app.py:134-136 | a further valid JSON message publishes nothing; it only sets the mode to JSON, also over per-field mode |
| `Discovery.FieldFirstDiscovery` | smartnetz_gasreader_discovery/app.py:148-153 | the first trigger-key field message of an unseen device sets per-field mode only where no mode exists and adds the device; it appends eight retained announcements under the mode now recorded |
| `Discovery.FieldFirstDiscoveryMain` | smartnetz_gasreader_discovery/app.py:149-153 | where modes are recorded exactly for the discovered devices (every consistent state), the new device gets per-field mode and its announcements use the per-field state topics `tele/<dev>/main/<key>` |
| `Discovery.FieldRepeat` | smartnetz_gasreader_discovery/app.py:149-151 | a further trigger-key field message publishes nothing and keeps an existing mode |
| `Discovery.StepMonotone` | smartnetz_gasreader_discovery/app.py:134-153 | the discovered set and the set of devices with a mode only grow; the outbox is only appended to |
| `Discovery.StepPublishes` | smartnetz_gasreader_discovery/app.py:136-153 | a message publishes nothing, or one full set of announcements for a device it newly adds |
| `Discovery.AnnouncementsConsistent` | smartnetz_gasreader_discovery/app.py:77-103 | every publish of a discovery run is retained and on a topic the handler ignores |
| `Discovery.DiscoverOutboxMatches` | smartnetz_gasreader_discovery/app.py:136-138 | appending an unseen device's announcements to a matching outbox gives an outbox that matches with that device added |
| `Discovery.StepConsistent` | smartnetz_gasreader_discovery/app.py:118-154 | each callback keeps the invariants: modes recorded exactly for discovered devices; device ids free of '/'; the outbox holds one retained publish on each of the eight discovery topics of every discovered device and nothing else (no topic twice, every publish belonging to a discovered device, none a telemetry topic) |
| `Discovery.RunConsistent` | smartnetz_gasreader_discovery/app.py:118-154 | any sequence of messages keeps the invariants, grows the discovered set and only appends; so each sensor of each discovered device is announced exactly once |
| `Discovery.ConsistentAnnouncedOnce` | smartnetz_gasreader_discovery/app.py:136-153 | in a consistent state each discovery topic of each discovered device occurs in the outbox, at exactly one position |
| `Discovery.DoubleAnnouncementInconsistent` | smartnetz_gasreader_discovery/app.py:136-153 | an outbox announcing device `a` twice and device `b` never is not consistent |
| `Discovery.InitialRunConsistent` | smartnetz_gasreader_discovery/app.py:37-38 | from the empty start state, every run ends consistent |
| `Discovery.FieldThenJson` | smartnetz_gasreader_discovery/app.py:134-153 | a device first seen on `main/gastotal`, then on valid JSON, ends in JSON mode; its outbox still holds only the per-field announcements |
| `Discovery.Registry.constructor` | smartnetz_gasreader_discovery/app.py:37-38 | a fresh handler has nothing discovered, no modes and nothing published |
| `Discovery.Registry.PublishDiscovery` | smartnetz_gasreader_discovery/app.py:58-103 | the loop appends exactly `Announcements(dev, MODE.get(dev))` to the outbox and changes nothing else |
| `Discovery.Registry.OnMessage` | smartnetz_gasreader_discovery/app.py:118-154 | the callback's new state is `Step` of the old state, and it keeps the invariants |

## Left out

- Reading the environment (host, port, credentials, TLS flag), the TLS context and `main()`: pure I/O and process lifecycle. This covers the connect, the `loop_start` thread, the `sleep` loop and the disconnect.
- `on_connect`: it only subscribes the client to three filters. The filters are recorded as the constants `SUB_JSON`, `SUB_MAIN` and `SUB_LWT`. MQTT wildcard matching is done by the broker and is not modelled. The handler itself does not depend on the subscriptions.
- `bytes.decode` and `json.loads`: a decoded payload is its set of top-level keys, and `None` stands for any decoding exception. On a non-object JSON value, Python's `in` would test list membership or substring, or raise `TypeError` for a number, `null`, `true` or `false`; that check stands outside the `try`, so the error would escape the callback. Only objects are modelled.
- `json.dumps` and the MQTT publish call: the payload is kept as a record, and no JSON text or network send is produced.
- Logging (`log`, `print`).
- The Jinja value templates are built as strings. Home Assistant, not this program, evaluates them; their meaning is not modelled.
- Concurrency: the MQTT client calls the callback from its network thread one message at a time, so `Run` processes messages in sequence.
