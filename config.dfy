/** Configuration records: the defaults, the mapping from a loaded YAML
    document onto the records, the merge of command-line overrides, the
    required-field validation and the dotted-key lookup. */
module Configuration {
  import opened Wrappers
  import opened Text

  /** A Python value of unknown type, where the source inspects the type at
      run time (the hop limit read from YAML). `OtherValue` carries the text
      Python's str() gives for it. */
  datatype Value =
    | NoneValue
    | IntValue(i: int)
    | BoolValue(b: bool)
    | StrValue(s: string)
    | OtherValue(text: string)

  datatype MQTTConfig = MQTTConfig(server: string, port: int, username: string, password: string)

  datatype MeshtasticConfig = MeshtasticConfig(
    gatewayId: string, toId: string, channel: string, region: string,
    wantAck: bool, hopLimit: Value)

  datatype AppConfig = AppConfig(mqtt: MQTTConfig, meshtastic: MeshtasticConfig)

  const DEFAULT_PORT: int := 1883
  const DEFAULT_HOP_LIMIT: int := 3

  function DefaultMqtt(): MQTTConfig {
    MQTTConfig("", DEFAULT_PORT, "", "")
  }

  function DefaultMeshtastic(): MeshtasticConfig {
    MeshtasticConfig("", "^all", "LongFast", "US", false, IntValue(DEFAULT_HOP_LIMIT))
  }

  function Defaults(): AppConfig {
    AppConfig(DefaultMqtt(), DefaultMeshtastic())
  }

  // ---------------------------------------------------------------------------
  // Loading

  /** The keys of the `mqtt` section of a YAML document; None is a key that is absent. */
  datatype MqttSection = MqttSection(
    server: Option<string>, port: Option<int>, username: Option<string>, password: Option<string>)

  /** The keys of the `meshtastic` section. */
  datatype MeshSection = MeshSection(
    gatewayId: Option<string>, toId: Option<string>, channel: Option<string>, region: Option<string>,
    wantAck: Option<bool>, hopLimit: Option<Value>)

  /** A section that is present in the document: a mapping, or some other YAML
      value (such as null), on which `.get` raises. */
  datatype Entry<T> = Mapping(keys: T) | NotAMapping

  /** A YAML document whose top level is a mapping; None for a section that is absent. */
  datatype Document = Document(mqtt: Option<Entry<MqttSection>>, meshtastic: Option<Entry<MeshSection>>)

  datatype LoadError = SectionNotMapping(section: string)

  function Or<T>(o: Option<T>, default: T): T {
    if o.Some? then o.value else default
  }

  /** The record a present `mqtt` section makes: its keys, and the defaults
      for the keys it lacks. */
  function MqttFrom(s: MqttSection): MQTTConfig {
    MQTTConfig(Or(s.server, ""), Or(s.port, DEFAULT_PORT), Or(s.username, ""), Or(s.password, ""))
  }

  function MeshtasticFrom(s: MeshSection): MeshtasticConfig {
    MeshtasticConfig(Or(s.gatewayId, ""), Or(s.toId, "^all"), Or(s.channel, "LongFast"),
                     Or(s.region, "US"), Or(s.wantAck, false), Or(s.hopLimit, IntValue(DEFAULT_HOP_LIMIT)))
  }

  /** What loading `data` (None is a document that is YAML null) does to `c`:
      the `mqtt` section is applied first and stays applied when the
      `meshtastic` section then fails. */
  function Loaded(c: AppConfig, data: Option<Document>): (Outcome<LoadError>, AppConfig) {
    if data.None? then (Pass, c)
    else
      var d := data.value;
      if d.mqtt == Some(NotAMapping) then (Fail(SectionNotMapping("mqtt")), c)
      else
        var c1 := if d.mqtt.Some? then c.(mqtt := MqttFrom(d.mqtt.value.keys)) else c;
        if d.meshtastic == Some(NotAMapping) then (Fail(SectionNotMapping("meshtastic")), c1)
        else if d.meshtastic.Some? then (Pass, c1.(meshtastic := MeshtasticFrom(d.meshtastic.value.keys)))
        else (Pass, c1)
  }

  /** A null document loads like an empty one. */
  lemma LoadNullIsEmpty(c: AppConfig)
    ensures Loaded(c, None) == Loaded(c, Some(Document(None, None)))
    ensures Loaded(c, None) == (Pass, c)
  {
  }

  /** A section that is absent leaves its record as it was. */
  lemma LoadAbsentSection(c: AppConfig, d: Document)
    ensures d.mqtt.None? ==> Loaded(c, Some(d)).1.mqtt == c.mqtt
    ensures d.meshtastic.None? ==> Loaded(c, Some(d)).1.meshtastic == c.meshtastic
  {
  }

  /** A section that is present and a mapping replaces its whole record: the
      result does not depend on the record's previous value, and a key the
      section lacks takes its default. */
  lemma LoadPresentSection(c: AppConfig, c': AppConfig, d: Document)
    requires d.mqtt.Some? && d.mqtt.value.Mapping?
    ensures Loaded(c, Some(d)).1.mqtt == Loaded(c', Some(d)).1.mqtt == MqttFrom(d.mqtt.value.keys)
    ensures d.mqtt.value.keys.port.None? ==> Loaded(c, Some(d)).1.mqtt.port == DEFAULT_PORT
    ensures d.meshtastic.Some? && d.meshtastic.value.Mapping? ==>
      && Loaded(c, Some(d)).0.Pass?
      && Loaded(c, Some(d)).1.meshtastic == Loaded(c', Some(d)).1.meshtastic
      && (d.meshtastic.value.keys.hopLimit.None? ==>
            Loaded(c, Some(d)).1.meshtastic.hopLimit == IntValue(DEFAULT_HOP_LIMIT))
  {
  }

  /** An empty section gives exactly the defaults. */
  lemma LoadEmptySections(c: AppConfig)
    ensures Loaded(c, Some(Document(Some(Mapping(MqttSection(None, None, None, None))),
                                    Some(Mapping(MeshSection(None, None, None, None, None, None))))))
            == (Pass, Defaults())
  {
  }

  /** A section that is not a mapping fails the load; only a failing
      `meshtastic` section leaves an update behind, that of `mqtt`. */
  lemma LoadFailure(c: AppConfig, d: Document)
    ensures Loaded(c, Some(d)).0.Fail? <==> d.mqtt == Some(NotAMapping) || d.meshtastic == Some(NotAMapping)
    ensures d.mqtt == Some(NotAMapping) ==> Loaded(c, Some(d)).1 == c
    ensures Loaded(c, Some(d)).0.Fail? ==> Loaded(c, Some(d)).1.meshtastic == c.meshtastic
  {
  }

  // ---------------------------------------------------------------------------
  // Command-line overrides

  /** The override values taken from the command line; None is an option
      left unset. */
  datatype CliArgs = CliArgs(
    server: Option<string>, port: Option<int>, username: Option<string>, password: Option<string>,
    gatewayId: Option<string>, toId: Option<string>, channel: Option<string>, region: Option<string>,
    wantAck: Option<bool>, hopLimit: Option<int>)

  /** Python truthiness of an optional string: set and non-empty. */
  predicate TruthyStr(o: Option<string>) {
    o.Some? && o.value != ""
  }

  /** Python truthiness of an optional integer: set and non-zero. */
  predicate TruthyInt(o: Option<int>) {
    o.Some? && o.value != 0
  }

  function Override(o: Option<string>, current: string): string {
    if TruthyStr(o) then o.value else current
  }

  /** What merging the overrides `a` does to `c`: the eight text and port
      settings are replaced only by a truthy value, the acknowledgment flag and
      the hop limit by any value that is set. */
  function Merged(c: AppConfig, a: CliArgs): AppConfig {
    AppConfig(
      MQTTConfig(Override(a.server, c.mqtt.server),
                 if TruthyInt(a.port) then a.port.value else c.mqtt.port,
                 Override(a.username, c.mqtt.username),
                 Override(a.password, c.mqtt.password)),
      MeshtasticConfig(Override(a.gatewayId, c.meshtastic.gatewayId),
                       Override(a.toId, c.meshtastic.toId),
                       Override(a.channel, c.meshtastic.channel),
                       Override(a.region, c.meshtastic.region),
                       if a.wantAck.Some? then a.wantAck.value else c.meshtastic.wantAck,
                       if a.hopLimit.Some? then IntValue(a.hopLimit.value) else c.meshtastic.hopLimit))
  }

  /** Two sets of overrides as one: `b`'s truthy value (for the
      acknowledgment flag and the hop limit, `b`'s set value) over `a`'s. */
  function Over(a: CliArgs, b: CliArgs): CliArgs {
    CliArgs(
      if TruthyStr(b.server) then b.server else a.server,
      if TruthyInt(b.port) then b.port else a.port,
      if TruthyStr(b.username) then b.username else a.username,
      if TruthyStr(b.password) then b.password else a.password,
      if TruthyStr(b.gatewayId) then b.gatewayId else a.gatewayId,
      if TruthyStr(b.toId) then b.toId else a.toId,
      if TruthyStr(b.channel) then b.channel else a.channel,
      if TruthyStr(b.region) then b.region else a.region,
      if b.wantAck.Some? then b.wantAck else a.wantAck,
      if b.hopLimit.Some? then b.hopLimit else a.hopLimit)
  }

  /** Merging `a` and then `b` is merging their layering once: later
      overrides win field by field, and a falsy one lets the earlier through. */
  lemma MergeLayers(c: AppConfig, a: CliArgs, b: CliArgs)
    ensures Merged(Merged(c, a), b) == Merged(c, Over(a, b))
  {
  }

  /** A command line that sets every setting decides the configuration alone:
      the file's values do not matter. */
  lemma MergeFullOverride(c1: AppConfig, c2: AppConfig, a: CliArgs)
    requires TruthyStr(a.server) && TruthyInt(a.port) && TruthyStr(a.username) && TruthyStr(a.password)
    requires TruthyStr(a.gatewayId) && TruthyStr(a.toId) && TruthyStr(a.channel) && TruthyStr(a.region)
    requires a.wantAck.Some? && a.hopLimit.Some?
    ensures Merged(c1, a) == Merged(c2, a)
  {
  }

  /** A falsy override keeps the file's value: an empty string or a port of 0
      on the command line changes nothing. */
  lemma MergeFalsyKeeps(c: AppConfig, a: CliArgs)
    requires a.server == Some("") && a.port == Some(0)
    ensures Merged(c, a).mqtt.server == c.mqtt.server && Merged(c, a).mqtt.port == c.mqtt.port
  {
  }

  /** Overrides that set nothing leave the configuration as it was. */
  lemma MergeNothing(c: AppConfig)
    ensures Merged(c, CliArgs(None, None, None, None, None, None, None, None, None, None)) == c
  {
  }

  /** Applying the same overrides twice is applying them once. */
  lemma MergeIdempotent(c: AppConfig, a: CliArgs)
    ensures Merged(Merged(c, a), a) == Merged(c, a)
  {
  }

  // ---------------------------------------------------------------------------
  // Validation

  /** The settings that must be non-empty, in the order they are reported. */
  const RequiredKeys: seq<string> := ["mqtt.server", "mqtt.username", "mqtt.password", "meshtastic.gateway_id"]

  function RequiredValues(c: AppConfig): (vs: seq<string>)
    ensures |vs| == |RequiredKeys|
  {
    [c.mqtt.server, c.mqtt.username, c.mqtt.password, c.meshtastic.gatewayId]
  }

  const MISSING_PREFIX: string := "Missing required configuration parameters: "

  /** `a` is `b` with some elements left out, the rest kept in order. */
  predicate IsSubsequence<T(==)>(a: seq<T>, b: seq<T>)
    decreases |b|
  {
    if a == [] then true
    else if b == [] then false
    else if a[0] == b[0] then IsSubsequence(a[1..], b[1..])
    else IsSubsequence(a, b[1..])
  }

  /** The names whose value is empty, in the order of `names`. */
  function MissingAmong(names: seq<string>, values: seq<string>): seq<string>
    requires |names| == |values|
    decreases |names|
  {
    if names == [] then []
    else IfEmpty(names[0], values[0]) + MissingAmong(names[1..], values[1..])
  }

  /** The missing names are those whose value is empty, kept in their order,
      and none is missing exactly when every value is set. */
  lemma {:induction false} MissingAmongSpec(names: seq<string>, values: seq<string>)
    requires |names| == |values|
    ensures IsSubsequence(MissingAmong(names, values), names)
    ensures forall k :: k in MissingAmong(names, values) <==>
      exists i :: 0 <= i < |names| && names[i] == k && values[i] == ""
    ensures MissingAmong(names, values) == [] <==> forall i :: 0 <= i < |values| ==> values[i] != ""
    decreases |names|
  {
    if names != [] {
      var rest := MissingAmong(names[1..], values[1..]);
      MissingAmongSpec(names[1..], values[1..]);
      assert forall i :: 1 <= i < |names| ==> names[i] == names[1..][i - 1] && values[i] == values[1..][i - 1];
      if values[0] == "" {
        assert MissingAmong(names, values) == [names[0]] + rest;
      } else {
        assert MissingAmong(names, values) == rest;
        SubsequenceOfTail(rest, names);
      }
    }
  }

  lemma {:induction false} SubsequenceOfTail<T>(a: seq<T>, b: seq<T>)
    requires b != [] && IsSubsequence(a, b[1..])
    ensures IsSubsequence(a, b)
    decreases |b|, 0
  {
    if a != [] && a[0] == b[0] {
      SubsequenceTail(a, b[1..]);
    }
  }

  lemma {:induction false} SubsequenceTail<T>(a: seq<T>, b: seq<T>)
    requires a != [] && IsSubsequence(a, b)
    ensures IsSubsequence(a[1..], b)
    decreases |b|, 1
  {
    if a[0] == b[0] {
      SubsequenceOfTail(a[1..], b);
    } else {
      SubsequenceTail(a, b[1..]);
      SubsequenceOfTail(a[1..], b);
    }
  }

  /** The required settings that are empty in `c`, in reporting order. */
  function MissingKeys(c: AppConfig): seq<string> {
    MissingAmong(RequiredKeys, RequiredValues(c))
  }

  /** `[name]` when `value` is empty, nothing otherwise. */
  function IfEmpty(name: string, value: string): seq<string> {
    if value == "" then [name] else []
  }

  /** The first setting is checked before the rest. */
  lemma MissingAmongCons(names: seq<string>, values: seq<string>)
    requires |names| == |values| > 0
    ensures MissingAmong(names, values) == IfEmpty(names[0], values[0]) + MissingAmong(names[1..], values[1..])
  {
  }

  /** Four settings are checked one at a time, in order. */
  lemma MissingAmongFour(names: seq<string>, values: seq<string>)
    requires |names| == |values| == 4
    ensures MissingAmong(names, values)
      == IfEmpty(names[0], values[0]) + IfEmpty(names[1], values[1])
       + IfEmpty(names[2], values[2]) + IfEmpty(names[3], values[3])
  {
    var n1, v1 := names[1..], values[1..];
    var n2, v2 := n1[1..], v1[1..];
    var n3, v3 := n2[1..], v2[1..];
    MissingAmongCons(names, values);
    MissingAmongCons(n1, v1);
    MissingAmongCons(n2, v2);
    MissingAmongCons(n3, v3);
    assert MissingAmong(n3[1..], v3[1..]) == [];
  }

  /** The defaults lack all four required settings. */
  lemma DefaultsMissEverything()
    ensures MissingKeys(Defaults()) == RequiredKeys
  {
  }

  // ---------------------------------------------------------------------------
  // Dotted-key lookup

  function MqttField(m: MQTTConfig, name: string, default: Value): Value {
    match name
    case "server" => StrValue(m.server)
    case "port" => IntValue(m.port)
    case "username" => StrValue(m.username)
    case "password" => StrValue(m.password)
    case _ => default
  }

  function MeshtasticField(m: MeshtasticConfig, name: string, default: Value): Value {
    match name
    case "gateway_id" => StrValue(m.gatewayId)
    case "to_id" => StrValue(m.toId)
    case "channel" => StrValue(m.channel)
    case "region" => StrValue(m.region)
    case "want_ack" => BoolValue(m.wantAck)
    case "hop_limit" => m.hopLimit
    case _ => default
  }

  /** `get(key, default)`: a key of exactly two dot-separated parts naming a
      section and one of its fields gives that field; any other key gives
      `default`. */
  function Lookup(c: AppConfig, key: string, default: Value): (v: Value)
    ensures Occurrences(key, '.') != 1 ==> v == default
  {
    var parts := Split(key, '.');
    if |parts| != 2 then default
    else if parts[0] == "mqtt" then MqttField(c.mqtt, parts[1], default)
    else if parts[0] == "meshtastic" then MeshtasticField(c.meshtastic, parts[1], default)
    else default
  }

  /** A key `section.field` is split at its one dot. */
  lemma LookupKey(c: AppConfig, section: string, field: string, default: Value)
    requires '.' !in section && '.' !in field
    ensures Lookup(c, section + "." + field, default)
      == (if section == "mqtt" then MqttField(c.mqtt, field, default)
          else if section == "meshtastic" then MeshtasticField(c.meshtastic, field, default)
          else default)
  {
    var parts := [section, field];
    assert Join(parts, ['.']) == section + "." + field;
    SplitJoin(parts, '.');
  }

  /** Every unknown section, and every unknown field of a known section, gives the default. */
  lemma LookupUnknown(c: AppConfig, section: string, field: string, default: Value)
    requires '.' !in section && '.' !in field
    requires section !in {"mqtt", "meshtastic"}
      || (section == "mqtt" && field !in {"server", "port", "username", "password"})
      || (section == "meshtastic"
          && field !in {"gateway_id", "to_id", "channel", "region", "want_ack", "hop_limit"})
    ensures Lookup(c, section + "." + field, default) == default
  {
    LookupKey(c, section, field, default);
  }

  lemma LookupServer(c: AppConfig, default: Value)
    ensures Lookup(c, "mqtt.server", default) == StrValue(c.mqtt.server)
  {
    assert "mqtt.server" == "mqtt" + "." + "server";
    LookupKey(c, "mqtt", "server", default);
    assert MqttField(c.mqtt, "server", default) == StrValue(c.mqtt.server) by {
      assert "server"[0] == 's';
    }
  }

  lemma LookupUsername(c: AppConfig, default: Value)
    ensures Lookup(c, "mqtt.username", default) == StrValue(c.mqtt.username)
  {
    assert "mqtt.username" == "mqtt" + "." + "username";
    LookupKey(c, "mqtt", "username", default);
    assert MqttField(c.mqtt, "username", default) == StrValue(c.mqtt.username) by {
      assert "username"[0] == 'u';
    }
  }

  lemma LookupPassword(c: AppConfig, default: Value)
    ensures Lookup(c, "mqtt.password", default) == StrValue(c.mqtt.password)
  {
    assert "mqtt.password" == "mqtt" + "." + "password";
    LookupKey(c, "mqtt", "password", default);
    assert MqttField(c.mqtt, "password", default) == StrValue(c.mqtt.password) by {
      assert "password"[0] == 'p';
    }
  }

  lemma LookupGatewayId(c: AppConfig, default: Value)
    ensures Lookup(c, "meshtastic.gateway_id", default) == StrValue(c.meshtastic.gatewayId)
  {
    assert "meshtastic.gateway_id" == "meshtastic" + "." + "gateway_id";
    LookupKey(c, "meshtastic", "gateway_id", default);
    assert MeshtasticField(c.meshtastic, "gateway_id", default) == StrValue(c.meshtastic.gatewayId) by {
      assert "gateway_id"[0] == 'g';
    }
  }

  /** The required settings are the ones `get` reads under the reported names. */
  lemma RequiredAreLookups(c: AppConfig, default: Value)
    ensures RequiredKeys == ["mqtt.server", "mqtt.username", "mqtt.password", "meshtastic.gateway_id"]
    ensures Lookup(c, "mqtt.server", default) == StrValue(c.mqtt.server)
    ensures Lookup(c, "mqtt.username", default) == StrValue(c.mqtt.username)
    ensures Lookup(c, "mqtt.password", default) == StrValue(c.mqtt.password)
    ensures Lookup(c, "meshtastic.gateway_id", default) == StrValue(c.meshtastic.gatewayId)
  {
    LookupServer(c, default);
    LookupUsername(c, default);
    LookupPassword(c, default);
    LookupGatewayId(c, default);
  }

  // ---------------------------------------------------------------------------
  // The configuration object

  class Config {
    var config: AppConfig

    constructor ()
      ensures config == Defaults()
    {
      config := Defaults();
    }

    /** The mapping step of `load_from_file`, once the file has been read and
        parsed: the sections present replace their records in place. */
    method LoadFromData(data: Option<Document>) returns (r: Outcome<LoadError>)
      modifies this`config
      ensures (r, config) == Loaded(old(config), data)
    {
      if data.None? {
        return Pass;
      }
      var d := data.value;
      if d.mqtt.Some? {
        match d.mqtt.value {
          case NotAMapping =>
            return Fail(SectionNotMapping("mqtt"));
          case Mapping(s) =>
            config := config.(mqtt := MqttFrom(s));
        }
      }
      if d.meshtastic.Some? {
        match d.meshtastic.value {
          case NotAMapping =>
            return Fail(SectionNotMapping("meshtastic"));
          case Mapping(s) =>
            config := config.(meshtastic := MeshtasticFrom(s));
        }
      }
      r := Pass;
    }

    /** `merge_with_cli_args`: each override is written in place in turn,
        the connection settings first. */
    method MergeWithCliArgs(a: CliArgs)
      modifies this`config
      ensures config == Merged(old(config), a)
    {
      MergeMqtt(a);
      MergeMeshtastic(a);
    }

    method MergeMqtt(a: CliArgs)
      modifies this`config
      ensures config == old(config).(mqtt := Merged(old(config), a).mqtt)
    {
      if TruthyStr(a.server) {
        config := config.(mqtt := config.mqtt.(server := a.server.value));
      }
      if TruthyInt(a.port) {
        config := config.(mqtt := config.mqtt.(port := a.port.value));
      }
      if TruthyStr(a.username) {
        config := config.(mqtt := config.mqtt.(username := a.username.value));
      }
      if TruthyStr(a.password) {
        config := config.(mqtt := config.mqtt.(password := a.password.value));
      }
    }

    method MergeMeshtastic(a: CliArgs)
      modifies this`config
      ensures config == old(config).(meshtastic := Merged(old(config), a).meshtastic)
    {
      if TruthyStr(a.gatewayId) {
        config := config.(meshtastic := config.meshtastic.(gatewayId := a.gatewayId.value));
      }
      if TruthyStr(a.toId) {
        config := config.(meshtastic := config.meshtastic.(toId := a.toId.value));
      }
      if TruthyStr(a.channel) {
        config := config.(meshtastic := config.meshtastic.(channel := a.channel.value));
      }
      if TruthyStr(a.region) {
        config := config.(meshtastic := config.meshtastic.(region := a.region.value));
      }
      if a.wantAck.Some? {
        config := config.(meshtastic := config.meshtastic.(wantAck := a.wantAck.value));
      }
      if a.hopLimit.Some? {
        config := config.(meshtastic := config.meshtastic.(hopLimit := IntValue(a.hopLimit.value)));
      }
    }

    /** `validate`: collects the empty required settings in order and fails
        naming all of them. */
    method Validate() returns (r: Outcome<string>)
      ensures r.Pass? <==>
        config.mqtt.server != "" && config.mqtt.username != "" && config.mqtt.password != ""
        && config.meshtastic.gatewayId != ""
      ensures r.Fail? ==> r.error == MISSING_PREFIX + Join(MissingKeys(config), ", ")
    {
      MissingAmongFour(RequiredKeys, RequiredValues(config));
      var missing: seq<string> := [];
      if config.mqtt.server == "" {
        missing := missing + ["mqtt.server"];
      }
      assert missing == IfEmpty("mqtt.server", config.mqtt.server);
      if config.mqtt.username == "" {
        missing := missing + ["mqtt.username"];
      }
      assert missing == IfEmpty("mqtt.server", config.mqtt.server) + IfEmpty("mqtt.username", config.mqtt.username);
      if config.mqtt.password == "" {
        missing := missing + ["mqtt.password"];
      }
      assert missing == IfEmpty("mqtt.server", config.mqtt.server) + IfEmpty("mqtt.username", config.mqtt.username)
        + IfEmpty("mqtt.password", config.mqtt.password);
      if config.meshtastic.gatewayId == "" {
        missing := missing + ["meshtastic.gateway_id"];
      }
      assert missing == MissingKeys(config);
      if missing != [] {
        return Fail(MISSING_PREFIX + Join(missing, ", "));
      }
      r := Pass;
    }
  }
}
