# meshtastic-mqtt-protobuf, modelled in Dafny

This project models the four pieces of logic that take a text message from the
command line to a Meshtastic MQTT broker.

- **Message layer** (`message.dfy`, module `Message`). It covers node-id parsing
  (`^all` in any case, `!<hex>`, decimal), the 16/16-bit packet-id packing, the
  three-layer envelope (ServiceEnvelope, MeshPacket, Data) as datatypes, and the
  MQTT topic `msh/<region>/2/e/<channel>/<gateway_id>`.
- **Configuration** (`config.dfy`, module `Configuration`). It covers the
  defaults and the mapping of a loaded YAML document onto the records. It also
  covers the command-line override rules, the required-field validator with its
  ordered list of missing names, and the dotted-key lookup. The `Config`
  object is a class whose one field `config` its methods update in place.
- **MQTT client** (`mqtt_client.dfy`, module `MqttClient`). The class
  `MeshtasticMqttClient` has the fields `client`, `connected` and
  `connectionError`, plus `calls`, the log of calls made into paho-mqtt. The
  broker is an event source:
  - the socket outcome of the connect call;
  - the CONNACK return code arriving, or not, at each 0.1 s tick;
  - the return code of a publish;
  - how the teardown goes.

  The CONNACK refusal reasons are those of section 3.2.2.3 of MQTT 3.1.1.
- **Command line** (`cli.dfy`, module `Cli`). It covers the hop-limit range
  check and how the parsed options become configuration overrides. `main` is
  modelled as a method over the outcome of each stage (returns, or raises one
  of the exceptions that decide an exit code). It returns the exit code, the
  stages attempted and the number of disconnects.

Supporting modules:

- `Wrappers` holds Option, Result and Outcome.
- `Text` holds Python's `split`/`join` for a one-character separator, digit
  strings in bases 2 to 16 (`int(s, base)` on plain digits), `str()` of an
  integer, ASCII lower-casing and the whitespace class of `str.strip()`.
- `Utf8` holds encoding and strict decoding per section 3 of RFC 3629, with
  the round trip proved.

Where the code and its own description differ, the model follows the code:

- A socket-level `TimeoutError` (in Python an `OSError`) raised during the
  connect call is re-raised unchanged by the first `except` clause of
  `connect`. It surfaces as a TimeoutError, not a ConnectionError
  (`MqttClient.MeshtasticMqttClient.Connect`, case `OsTimeout`). Every other
  `OSError` becomes a ConnectionError.
- `disconnect` clears `connected` only when both `loop_stop` and `disconnect`
  return. If either raises, `connected` keeps its value; only `client` is always
  cleared.
- `connect` does not reset `connected` or `connection_error` before waiting. A
  flag left by an earlier call ends the wait at once and decides the outcome
  (`MqttClient.WaitWhenSettled`).
- A hop limit that is a `bool` passes `validate_inputs`, because `isinstance(True,
  int)` holds in Python.

The two places where the code is evidently wrong are the exception (see
"## Findings"). Each is modelled twice: once as written, once corrected. The
rest of the model uses the corrected half: `MqttClient.MeshtasticMqttClient.Connect`
returns `Verdict`, not `VerdictAsWritten`, and `Cli.Settings` merges
`ParsedArgs`, not `ParsedArgsAsWritten`.

## Model

| member | source | states |
|---|---|---|
| Message.ParseNodeId | src/meshtastic_mqtt_protobuf/message.py:52-89 | the definition of `parse_node_id`, with no contract of its own: the empty check, then `^all` in any case, then `!<hex>`, then decimal, in the source's order. The Parse* lemmas below state its properties |
| Message.ParseNodeIdAccepts | src/meshtastic_mqtt_protobuf/message.py:68-89 | a node id is accepted exactly when it is a spelling of `^all`, `!` followed by hex digits, or decimal digits |
| Message.ParseEmptyNodeId | src/meshtastic_mqtt_protobuf/message.py:68-69 | the empty-id error is raised for the empty string and for nothing else |
| Message.ParseBroadcast | src/meshtastic_mqtt_protobuf/message.py:72-73 | every case variant of `^all` is 0xFFFFFFFF |
| Message.ParseHexNodeId | src/meshtastic_mqtt_protobuf/message.py:76-81 | `!` followed by the hex digits of n parses back to n, with no 32-bit bound |
| Message.ParseHexExample | src/meshtastic_mqtt_protobuf/message.py:76-81 | `!12345678` is 0x12345678 |
| Message.ParseHexIgnoresCase | src/meshtastic_mqtt_protobuf/message.py:80-81 | hex digits are read in either case: lower-casing the hex part changes neither acceptance nor value |
| Message.ParseBadHex | src/meshtastic_mqtt_protobuf/message.py:76-83 | a bare `!` is the empty-hex error; `!` followed by a non-hex character is the invalid-hex error naming the id |
| Message.ParseDecimalNodeId | src/meshtastic_mqtt_protobuf/message.py:85-87 | the decimal digits of n parse back to n |
| Message.ParseInvalidFormat | src/meshtastic_mqtt_protobuf/message.py:85-89 | an id fitting none of the three shapes is the invalid-format error naming the id |
| Message.ParseBlankNodeId | src/meshtastic_mqtt_protobuf/message.py:85-89 | a whitespace-only id is not caught as empty; it fails the decimal parse |
| Message.ParseNodeIdExamples | src/meshtastic_mqtt_protobuf/message.py:52-89 | `12345` is 12345, `!xyz` is an invalid-hex error, `^ALL` is broadcast |
| Message.PacketId | src/meshtastic_mqtt_protobuf/message.py:101-105 | the id is below 2^32, its high 16 bits are the clock modulo 2^16 and its low 16 bits the random value |
| Message.PacketIdCollision | src/meshtastic_mqtt_protobuf/message.py:101-105 | two ids are equal exactly when the clocks agree modulo 2^16 and the random halves are equal |
| Message.Build | src/meshtastic_mqtt_protobuf/message.py:147-178 | empty text fails first, then a bad gateway id, then a bad recipient id, then a from, to or hop limit outside the 32-bit unsigned range, in that order; success exactly when all six are good, with from/to the parsed ids, channel 0, hop limit, want_ack, portnum TEXT_MESSAGE_APP, a UTF-8 payload that decodes back to the text, channel_id and the gateway id string |
| Message.BuildBroadcast | src/meshtastic_mqtt_protobuf/message.py:147-178 | a broadcast from a 32-bit hex gateway id with a hop limit from 0 to 7 builds, from the gateway's number to the broadcast address |
| Message.BuildTopic | src/meshtastic_mqtt_protobuf/message.py:213 | the definition of `build_topic`, with no contract of its own: the f-string `msh/<region>/2/e/<channel>/<gateway_id>`. The Topic* lemmas below state its properties |
| Message.TopicSegments | src/meshtastic_mqtt_protobuf/message.py:213 | splitting the topic at `/` gives `msh`, region, `2`, `e`, channel, gateway id when none of them holds a `/` |
| Message.TopicInjective | src/meshtastic_mqtt_protobuf/message.py:213 | different slash-free arguments give different topics |
| Message.TopicExample | src/meshtastic_mqtt_protobuf/message.py:213 | `("US", "LongFast", "!12345678")` gives `msh/US/2/e/LongFast/!12345678` |
| Text.Split | src/meshtastic_mqtt_protobuf/config.py:206 | `str.split` at one character gives one more piece than separators, no piece holds the separator, and joining gives the input back |
| Text.SplitJoin | src/meshtastic_mqtt_protobuf/config.py:206 | splitting undoes joining pieces that hold no separator |
| Text.ParseFormat | src/meshtastic_mqtt_protobuf/message.py:87 | the digits of n in any base 2..16 are all digits and parse back to n |
| Text.DigitsIgnoreCase | src/meshtastic_mqtt_protobuf/message.py:81 | a digit string and its lower-case form are accepted together and have the same value |
| Text.IntToDecimalInjective | src/meshtastic_mqtt_protobuf/mqtt_client.py:96 | different integers are printed differently |
| Utf8.Encode | src/meshtastic_mqtt_protobuf/message.py:159 | the definition of `text.encode('utf-8')` per section 3 of RFC 3629, with no contract of its own; `Utf8.DecodeEncode` states its round trip |
| Utf8.DecodeEncode | src/meshtastic_mqtt_protobuf/message.py:159 | decoding the UTF-8 encoding of a string gives the string |
| MqttClient.ConnackReason | src/meshtastic_mqtt_protobuf/mqtt_client.py:89-96 | the definition of the refusal table, with no contract of its own: codes 1 to 5 map to their reasons and any other code to `unknown error (code <rc>)` |
| MqttClient.ConnackError | src/meshtastic_mqtt_protobuf/mqtt_client.py:89-96 | the definition of the recorded text, with no contract of its own: `Connection refused - ` followed by the reason. The Connack* lemmas below state its properties |
| MqttClient.ConnackBadCredentials | src/meshtastic_mqtt_protobuf/mqtt_client.py:93 | return code 4 is reported as bad username or password |
| MqttClient.ConnackUnknownEchoesCode | src/meshtastic_mqtt_protobuf/mqtt_client.py:96 | a code outside 1..5 is reported as unknown, with the code in the text |
| MqttClient.ConnackErrorInjective | src/meshtastic_mqtt_protobuf/mqtt_client.py:89-96 | the refusal text identifies the return code |
| MqttClient.AfterConnack | src/meshtastic_mqtt_protobuf/mqtt_client.py:82-96 | after a CONNACK the client is connected and has no error exactly when the code is 0 |
| MqttClient.WaitOutcome | src/meshtastic_mqtt_protobuf/mqtt_client.py:129-132 | the definition of the wait's result, with no contract of its own: the flags and the ticks slept. Stale flags end it at once; otherwise it ends at the first CONNACK in the window, or unsettled at the limit. `WaitFromFresh` and `WaitWhenSettled` state its properties |
| MqttClient.FirstArrival | src/meshtastic_mqtt_protobuf/mqtt_client.py:130-132 | the first tick of the window at which a CONNACK arrives, or none in the whole window |
| MqttClient.WaitFromFresh | src/meshtastic_mqtt_protobuf/mqtt_client.py:129-132 | from a fresh client the wait lasts at most the timeout and ends with a flag set exactly when a CONNACK came in the window; connected exactly on code 0, refused with that code's reason otherwise; it stops at the first CONNACK, and runs to the limit when none comes |
| MqttClient.WaitWhenSettled | src/meshtastic_mqtt_protobuf/mqtt_client.py:130 | a flag left by an earlier connect ends the wait without sleeping |
| MqttClient.ConnectFailedText | src/meshtastic_mqtt_protobuf/mqtt_client.py:138 | the ConnectionError message contains the reason |
| MqttClient.TimedOutText | src/meshtastic_mqtt_protobuf/mqtt_client.py:140 | the TimeoutError message contains `timed out` |
| MqttClient.Verdict | src/meshtastic_mqtt_protobuf/mqtt_client.py:134-140 | the definition of what `connect` reports once the wait has ended, corrected: return, ConnectionError or TimeoutError, with no contract of its own. `VerdictCases` states its properties |
| MqttClient.VerdictAsWritten | src/meshtastic_mqtt_protobuf/mqtt_client.py:134-146 | the definition of the same report as written, with no contract of its own: a refusal's message is wrapped once more by the `except` clause for socket errors. `RefusalWrappedTwice` states its properties |
| MqttClient.VerdictCases | src/meshtastic_mqtt_protobuf/mqtt_client.py:135-140 | connect returns exactly when connected; raises ConnectionError exactly when a refusal was recorded, its message naming the broker once and then the reason; otherwise raises TimeoutError with `timed out` |
| MqttClient.RefusalWrappedTwice | src/meshtastic_mqtt_protobuf/mqtt_client.py:135-146 | as written, a refused CONNACK's message carries the broker prefix twice |
| MqttClient.MeshtasticMqttClient.constructor | src/meshtastic_mqtt_protobuf/mqtt_client.py:65-71 | stores server, port, username, password; no paho client, not connected, no error |
| MqttClient.MeshtasticMqttClient.OnConnect | src/meshtastic_mqtt_protobuf/mqtt_client.py:82-96 | code 0 connects and clears the error; any other code disconnects and records that code's refusal reason |
| MqttClient.MeshtasticMqttClient.Connect | src/meshtastic_mqtt_protobuf/mqtt_client.py:109-146 | makes a paho client, installs credentials exactly when both are non-empty, connects with keep-alive 60; a socket OSError becomes ConnectionError, a socket TimeoutError passes unchanged; once the broker is reached the loop is started and the flags and result are those of the wait outcome and the verdict |
| MqttClient.MeshtasticMqttClient.AwaitConnack | src/meshtastic_mqtt_protobuf/mqtt_client.py:129-132 | the polling loop ends with the flags and tick count of the wait outcome |
| MqttClient.MeshtasticMqttClient.Publish | src/meshtastic_mqtt_protobuf/mqtt_client.py:187-216 | not connected is refused before a non-bytes payload, neither calls paho; otherwise topic and payload go to paho unchanged at QoS 1, the acknowledgement is awaited only on success, and return codes 4, 15 and others map to their messages |
| MqttClient.MeshtasticMqttClient.Disconnect | src/meshtastic_mqtt_protobuf/mqtt_client.py:224-234 | never raises; without a client it changes nothing; otherwise the client is released whatever the teardown does, and `connected` is cleared only by a clean teardown |
| MqttClient.PublishError | src/meshtastic_mqtt_protobuf/mqtt_client.py:205-210 | the definition of the publish failure reason, with no contract of its own: `MQTT_ERR_NO_CONN` (4) and `MQTT_ERR_QUEUE_SIZE` (15) have their own texts, and any other code gives `Publish failed with error code <rc>`. `Publish` states how it is used |
| MqttClient.ConnectThenPublish | tests/test_mqtt_client.py:32-131 | connect on code 0 then publish: connected, the credentials installed and the call sequence the mocks check |
| MqttClient.BadCredentialsScenario | tests/test_mqtt_client.py:62-82 | code 4 raises ConnectionError mentioning bad username or password |
| MqttClient.TimeoutScenario | tests/test_mqtt_client.py:85-98 | no CONNACK raises TimeoutError mentioning `timed out` after ten ticks per second of timeout |
| MqttClient.PublishGuards | tests/test_mqtt_client.py:134-167 | publish before connect is refused as not connected; a non-bytes payload while connected is refused as not bytes |
| MqttClient.DisconnectTwice | tests/test_mqtt_client.py:170-194 | after disconnect the client is released and not connected, and a second disconnect calls nothing |
| Configuration.Defaults | src/meshtastic_mqtt_protobuf/config.py:50-74 | the definition of the dataclass defaults, with no contract of its own: empty server, username, password and gateway id; port 1883; recipient `^all`, channel `LongFast`, region `US`, want_ack false, hop limit 3 |
| Configuration.DefaultsMissEverything | src/meshtastic_mqtt_protobuf/config.py:53-62 | the defaults lack all four required settings |
| Configuration.Loaded | src/meshtastic_mqtt_protobuf/config.py:101-124 | the definition of loading a parsed document onto a configuration, with no contract of its own. The Load* lemmas below state its properties |
| Configuration.LoadNullIsEmpty | src/meshtastic_mqtt_protobuf/config.py:101-102 | a null document loads like an empty one and changes nothing |
| Configuration.LoadAbsentSection | src/meshtastic_mqtt_protobuf/config.py:105-124 | an absent section leaves its record unchanged |
| Configuration.LoadPresentSection | src/meshtastic_mqtt_protobuf/config.py:105-124 | a present section replaces the whole record, independent of its previous value; missing keys take the defaults |
| Configuration.LoadEmptySections | src/meshtastic_mqtt_protobuf/config.py:107-124 | empty sections give exactly the defaults |
| Configuration.LoadFailure | src/meshtastic_mqtt_protobuf/config.py:105-124 | loading fails exactly when a section is not a mapping; a bad `mqtt` section changes nothing, a bad `meshtastic` section keeps the `mqtt` update |
| Configuration.Merged | src/meshtastic_mqtt_protobuf/config.py:151-172 | the definition of `merge_with_cli_args` on values, with no contract of its own: server, port, username, password, gateway id, recipient, channel and region are replaced only by a truthy override; want_ack and hop_limit by any override that is set, false and 0 included. The Merge* lemmas below state its properties |
| Configuration.MergeLayers | src/meshtastic_mqtt_protobuf/config.py:151-172 | merging two command lines in turn is merging once with the later one's truthy (want_ack, hop_limit: set) values over the earlier one's |
| Configuration.MergeFullOverride | src/meshtastic_mqtt_protobuf/config.py:151-172 | a command line that sets all ten settings decides the merged configuration whatever the file holds |
| Configuration.MergeFalsyKeeps | src/meshtastic_mqtt_protobuf/config.py:151-154 | an empty server or a port of 0 on the command line keeps the file's value |
| Configuration.MergeNothing | src/meshtastic_mqtt_protobuf/config.py:151-172 | overrides that set nothing change nothing |
| Configuration.MergeIdempotent | src/meshtastic_mqtt_protobuf/config.py:151-172 | merging the same overrides twice is merging them once |
| Configuration.MissingKeys | src/meshtastic_mqtt_protobuf/config.py:180-190 | the definition of the missing-name list of `validate`, with no contract of its own. `MissingAmongSpec` states its properties |
| Configuration.MissingAmongSpec | src/meshtastic_mqtt_protobuf/config.py:180-190 | the missing names are those with an empty value, in their original order, and none are missing exactly when all are set |
| Configuration.Lookup | src/meshtastic_mqtt_protobuf/config.py:206-209 | a key without exactly one dot gives the default |
| Configuration.LookupKey | src/meshtastic_mqtt_protobuf/config.py:206-218 | `section.field` gives the field of the named section, or the default for any other section |
| Configuration.LookupUnknown | src/meshtastic_mqtt_protobuf/config.py:208-218 | an unknown section or field gives the default |
| Configuration.RequiredAreLookups | src/meshtastic_mqtt_protobuf/config.py:182-189 | the four reported names are the keys under which lookup finds the four checked settings |
| Configuration.Config.constructor | src/meshtastic_mqtt_protobuf/config.py:80-82 | a new configuration holds the defaults |
| Configuration.Config.LoadFromData | src/meshtastic_mqtt_protobuf/config.py:101-124 | the outcome and new configuration are those of `Loaded` on the old one |
| Configuration.Config.MergeWithCliArgs | src/meshtastic_mqtt_protobuf/config.py:136-172 | the new configuration is the old one with the overrides merged |
| Configuration.Config.MergeMqtt | src/meshtastic_mqtt_protobuf/config.py:151-158 | the in-place updates of the four connection settings change only the `mqtt` record |
| Configuration.Config.MergeMeshtastic | src/meshtastic_mqtt_protobuf/config.py:161-172 | the in-place updates of the six Meshtastic settings change only the `meshtastic` record |
| Configuration.Config.Validate | src/meshtastic_mqtt_protobuf/config.py:180-194 | passes exactly when server, username, password and gateway id are all non-empty; otherwise the message lists the missing names in that order |
| Cli.ValidateInputs | src/meshtastic_mqtt_protobuf/cli.py:179-184 | passes exactly when the hop limit is absent, a bool, or an integer from 0 to 7; the error mentions `hop_limit` and the value |
| Cli.HopLimitError | src/meshtastic_mqtt_protobuf/cli.py:182-184 | the message contains `hop_limit` and the rejected value |
| Cli.DefaultsPassValidation | src/meshtastic_mqtt_protobuf/cli.py:179-184 | the default hop limit passes |
| Cli.ParsedArgsAsWritten | src/meshtastic_mqtt_protobuf/cli.py:138-148 | the definition of the overrides `merge_with_cli_args` reads, as written, with no contract of its own: `--want-ack` is always a set value. `WantAckFromFileLost` states its properties |
| Cli.ParsedArgs | src/meshtastic_mqtt_protobuf/cli.py:138-148 | the same overrides, corrected: `--want-ack` left off sets nothing. It has no contract of its own; `WantAckMerged` states its properties |
| Cli.Settings | src/meshtastic_mqtt_protobuf/cli.py:260-261 | the definition of the settings `main` works with, corrected: the file's configuration with `ParsedArgs` merged over it. It has no contract of its own; `WantAckMerged` and `HopLimitFromCommandLine` state its properties |
| Cli.WantAckFromFileLost | src/meshtastic_mqtt_protobuf/cli.py:138-142 | as written, leaving off `--want-ack` overrides a file's `want_ack: true` with false |
| Cli.WantAckMerged | src/meshtastic_mqtt_protobuf/cli.py:138-142 | read as intended, acknowledgment is requested when the flag is given or the file asks for it, and every other setting merges as before |
| Cli.HopLimitFromCommandLine | src/meshtastic_mqtt_protobuf/cli.py:144-148 | a hop limit given on the command line alone decides the hop-limit check |
| Cli.Plan | src/meshtastic_mqtt_protobuf/cli.py:234-338 | the definition of the stages `main` runs in order, with no contract of its own: none for a blank message, creating the default file when it is missing, otherwise the nine stages from load to publish |
| Cli.Handled | src/meshtastic_mqtt_protobuf/cli.py:253-342 | the definition of the exit code of each stage's `except` clauses, with no contract of its own. `ConfigStages`, `MessageStages`, `BrokerStages` and `InterruptExits130` state its properties |
| Cli.ExitCode | src/meshtastic_mqtt_protobuf/cli.py:223-363 | the definition of the exit code of a run, with no contract of its own: 3 for a blank message, otherwise the handler of the first raising stage, or 0. `MainFlow` and `ExitCodes` state its properties |
| Cli.Attempted | src/meshtastic_mqtt_protobuf/cli.py:223-338 | the definition of the stages a run attempts, with no contract of its own: the plan up to and including the first raising stage. `MainFlow` and `SuccessPath` state its properties |
| Cli.FirstRaise | src/meshtastic_mqtt_protobuf/cli.py:251-338 | the first stage of the plan that raises, all before it having returned |
| Cli.ExitAt | src/meshtastic_mqtt_protobuf/cli.py:251-353 | when stage i is the first to raise, its handler decides the exit code, the stages up to i are attempted, and the client exists exactly when i is past construction |
| Cli.MainFlow | src/meshtastic_mqtt_protobuf/cli.py:212-363 | the exit code and attempted stages are those of the ladder, and disconnect is called once exactly when the client object was built |
| Cli.ConfigStages | src/meshtastic_mqtt_protobuf/cli.py:251-276 | a load failure exits 1, a validation ValueError 1, an input ValueError 3, all with no client; otherwise the four stages returned |
| Cli.MessageStages | src/meshtastic_mqtt_protobuf/cli.py:278-311 | a build ValueError exits 3, any other build error 99, with no client; otherwise build and topic returned |
| Cli.BrokerStages | src/meshtastic_mqtt_protobuf/cli.py:313-338 | connection and timeout errors exit 2, other connect errors 99, any publish failure 2; the client exists once its constructor returned |
| Cli.SuccessPath | src/meshtastic_mqtt_protobuf/cli.py:313-363 | exit 0 exactly when the message is not blank, the file exists and no stage raises; then all nine stages ran once and disconnect follows |
| Cli.BlankMessage | src/meshtastic_mqtt_protobuf/cli.py:234-236 | a blank message exits 3 before anything is attempted |
| Cli.MissingConfigFile | src/meshtastic_mqtt_protobuf/cli.py:245-249 | a missing file exits 1 once the default is created, with no client |
| Cli.EarlyExitsHaveNoClient | src/meshtastic_mqtt_protobuf/cli.py:251-316 | exits 1 and 3 happen before the client object exists |
| Cli.FailureAfterConstructDisconnects | src/meshtastic_mqtt_protobuf/cli.py:322-361 | a failed connect or publish exits by its handler and the client is disconnected |
| Cli.ExitCodes | src/meshtastic_mqtt_protobuf/cli.py:223-363 | every run exits with 0, 1, 2, 3, 99 or 130 |
| Cli.InterruptExits130 | src/meshtastic_mqtt_protobuf/cli.py:340-342 | an interrupt exits 130 wherever it is raised |

## Left out

- Protobuf serialisation: `Message.Build` returns the envelope as a datatype. The `mesh_pb2`/`mqtt_pb2` schemas and `SerializeToString` are not part of this model.
- Message.Build: the hop limit is an integer here. A `hop_limit: null` in the file passes `validate_inputs`, and protobuf then rejects `None` with a TypeError (exit 99); a value of another Python type is also not represented. Text that UTF-8 cannot encode is also left out: the lone surrogates that Python makes from undecodable command-line bytes raise UnicodeEncodeError. Dafny strings hold no such characters.
- Message.ParseNodeId: accepts only plain digit strings. Python's `int()` also takes a sign, underscores, surrounding whitespace, a `0x` prefix in base 16 and non-ASCII digits. Those inputs are rejected here.
- Message.PacketId: the clock and the random value are parameters. Whether two calls give different ids, or a non-zero id, depends on them and is not claimed.
- paho-mqtt internals: sockets, the network loop thread and its concurrent writes to `connected`/`connection_error`. The model delivers CONNACKs between ticks, in order.
- MqttClient.MeshtasticMqttClient.AwaitConnack: a timeout is a whole number of seconds, waited as exactly ten ticks per second. The source adds 0.1 to a float, so it can sleep one tick more, because ten additions give 0.9999999999999999. Fractional timeouts such as 0.2 are not modelled.
- MqttClient.MeshtasticMqttClient.Connect: a refused CONNACK is reported with the corrected single-wrapped message of `Verdict`, not the double-wrapped message the code as written raises. `VerdictAsWritten` and `RefusalWrappedTwice` state the code as written (see "## Findings").
- Cli.Settings: merges the corrected `ParsedArgs`. The code as written merges `ParsedArgsAsWritten`, which always overrides the file's `want_ack` (see "## Findings").
- MqttClient.MeshtasticMqttClient.Connect: `connection_error` is tested by truthiness in the source. The model tests it for presence, which agrees because every recorded reason is non-empty.
- The callbacks `_on_publish`, `setup_logging` and all logging: they only log.
- File and OS work:
  - YAML parsing and the YAML error messages, file existence and reading, `create_default_config`, `get_default_config_path`, `os.chmod`.
  - A document whose top level is not a mapping.
  - A YAML value of the wrong type for any setting other than the hop limit.
- `parse_arguments` (argparse): the command line is given already parsed, as `Cli.CommandLine`.
- Configuration.Lookup: `getattr` on a field name that is a Python attribute of the dataclass but not a field (such as `__class__`) is not modelled; such names give the default here.
- Cli.MainFlow: each stage's outcome is an input. An interrupt during the `finally` cleanup and a `SystemExit` raised by the stages' own code are not modelled.

## Findings

| source | as written | input that shows it | evidently intended | confidence | as-written member | corrected member |
|---|---|---|---|---|---|---|
| src/meshtastic_mqtt_protobuf/cli.py:138-142 | `--want-ack` is a store_true flag, so it is False, never None, when left off. The merge at config.py:169-170 then always overwrites the file's `want_ack` | a configuration file with `want_ack: true` and a command line without `--want-ack` sends with want_ack false | a flag left off leaves the file's setting, as the `is not None` test of the merge expects | medium, not executed | Cli.WantAckFromFileLost | Cli.WantAckMerged |
| src/meshtastic_mqtt_protobuf/mqtt_client.py:135-146 | the ConnectionError raised for a refusal is an OSError, so the `except (OSError, ConnectionRefusedError)` clause below catches it and wraps its message again | a broker at `h:1883` answering CONNACK code 4 gives `Failed to connect to MQTT broker at h:1883: Failed to connect to MQTT broker at h:1883: Connection refused - bad username or password` | the broker named once, followed by the refusal reason | high, not executed | MqttClient.RefusalWrappedTwice | MqttClient.VerdictCases |
