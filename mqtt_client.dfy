/** The MQTT client: one connection to a broker, connected by polling for the
    broker's CONNACK, a QoS 1 publish of a binary payload, and a disconnect that
    never fails. paho-mqtt is not modelled: the calls made into it are recorded
    in `calls`, and what it reports back (the socket outcome, the CONNACK codes
    arriving tick by tick, the return code of a publish) is passed in. */
module MqttClient {
  import opened Wrappers
  import opened Text
  import Utf8

  /** The keep-alive interval passed to the broker, in seconds. */
  const KEEPALIVE: int := 60
  /** Quality of service 1: the broker acknowledges receipt. */
  const QOS_AT_LEAST_ONCE: int := 1
  /** The wait loop sleeps 0.1 s per round. */
  const TICKS_PER_SECOND: int := 10

  /** paho-mqtt's publish return codes that the client names. */
  const MQTT_ERR_SUCCESS: int := 0
  const MQTT_ERR_NO_CONN: int := 4
  const MQTT_ERR_QUEUE_SIZE: int := 15

  datatype Credentials = Credentials(username: string, password: string)

  /** The paho-mqtt client object, with the credentials installed on it. */
  datatype PahoClient = PahoClient(credentials: Option<Credentials>)

  /** A call the client makes into paho-mqtt. */
  datatype PahoCall =
    | NewClient
    | SetCredentials(username: string, password: string)
    | ConnectCall(host: string, port: int, keepalive: int)
    | LoopStart
    | PublishCall(topic: string, payload: seq<Utf8.byte>, qos: int)
    | WaitForPublish
    | LoopStop
    | DisconnectCall

  /** What paho's socket-level connect does: it reaches the broker, or raises
      an OSError, a TimeoutError (itself an OSError) or some other exception,
      each with its message. */
  datatype SocketOutcome =
    | Reached
    | OsError(reason: string)
    | OsTimeout(reason: string)
    | OtherFailure(reason: string)

  /** What `connect` does: return, raise ConnectionError, raise TimeoutError,
      or let another exception through. */
  datatype ConnectResult =
    | Connected
    | ConnectionFailed(message: string)
    | TimedOut(message: string)
    | OtherError(message: string)

  /** The payload argument of `publish`: a bytes object or anything else. */
  datatype PayloadArg = Bytes(data: seq<Utf8.byte>) | NotBytes

  /** What `publish` does: return, or raise RuntimeError, ValueError or Exception. */
  datatype PublishResult =
    | Published
    | NotConnected(message: string)
    | InvalidPayload(message: string)
    | PublishFailed(message: string)

  /** How paho's teardown goes: `loop_stop` raises, `disconnect` raises, or neither. */
  datatype Teardown = Clean | LoopStopRaises | DisconnectRaises

  // ---------------------------------------------------------------------------
  // Reason texts

  /** The refusal reasons of section 3.2.2.3 of MQTT 3.1.1, return codes 1 to 5;
      any other code is reported as unknown, with the code. */
  function ConnackReason(rc: int): string {
    match rc
    case 1 => "incorrect protocol version"
    case 2 => "invalid client identifier"
    case 3 => "server unavailable"
    case 4 => "bad username or password"
    case 5 => "not authorized"
    case _ => UNKNOWN + IntToDecimal(rc) + ")"
  }

  const UNKNOWN: string := "unknown error (code "
  const REFUSED: string := "Connection refused - "

  /** The connection error the CONNACK callback records for return code `rc`. */
  function ConnackError(rc: int): string {
    REFUSED + ConnackReason(rc)
  }

  /** Return code 4 is reported as bad credentials. */
  lemma ConnackBadCredentials()
    ensures Contains(ConnackError(4), "bad username or password")
  {
    assert ConnackError(4) == REFUSED + "bad username or password" + "";
    ContainsMiddle(REFUSED, "bad username or password", "");
  }

  /** An unknown code is echoed in the reason. */
  lemma ConnackUnknownEchoesCode(rc: int)
    requires !(1 <= rc <= 5)
    ensures Contains(ConnackError(rc), IntToDecimal(rc))
  {
    var d := IntToDecimal(rc);
    assert ConnackReason(rc) == UNKNOWN + d + ")";
    assert ConnackError(rc) == (REFUSED + UNKNOWN) + d + ")";
    ContainsMiddle(REFUSED + UNKNOWN, d, ")");
  }

  /** The reason identifies the return code: different codes give different texts. */
  lemma ConnackErrorInjective(a: int, b: int)
    requires ConnackError(a) == ConnackError(b)
    ensures a == b
  {
    var ra, rb := ConnackReason(a), ConnackReason(b);
    assert ra == ConnackError(a)[|REFUSED|..];
    assert rb == ConnackError(b)[|REFUSED|..];
    var unknown := UNKNOWN;
    if !(1 <= a <= 5) && !(1 <= b <= 5) {
      var da, db := IntToDecimal(a), IntToDecimal(b);
      assert ra == unknown + da + ")";
      assert rb == unknown + db + ")";
      assert ra[|unknown|..|ra| - 1] == da;
      assert rb[|unknown|..|rb| - 1] == db;
      IntToDecimalInjective(a, b);
    } else {
      if 1 <= a <= 5 { KnownReason(a); }
      if 1 <= b <= 5 { KnownReason(b); }
      assert |ra| == |rb| && ra[0] == rb[0];
    }
  }

  /** A known reason never starts like an unknown one, and the five known
      reasons have five different lengths. */
  lemma KnownReason(rc: int)
    requires 1 <= rc <= 5
    ensures |ConnackReason(rc)| == [26, 25, 18, 24, 14][rc - 1]
    ensures ConnackReason(rc)[0] != UNKNOWN[0]
  {
  }

  /** The reason for a publish return code other than success. */
  function PublishError(rc: int): string {
    if rc == MQTT_ERR_NO_CONN then "No connection to broker"
    else if rc == MQTT_ERR_QUEUE_SIZE then "Message queue is full"
    else "Publish failed with error code " + IntToDecimal(rc)
  }

  const NOT_CONNECTED_TEXT: string := "Not connected to MQTT broker. Call connect() first."
  const NOT_BYTES_TEXT: string := "Payload must be bytes"

  // ---------------------------------------------------------------------------
  // CONNACK arrivals

  /** The CONNACK return code that arrives at tick `t`, if any: tick 0 is the
      connect call itself, tick t > 0 the t-th sleep of the wait loop, and
      nothing arrives after the end of the script. */
  function Arrival(connacks: seq<Option<int>>, t: nat): Option<int> {
    if t < |connacks| then connacks[t] else None
  }

  /** The first tick in `from..limit` at which a CONNACK arrives. */
  function FirstArrival(connacks: seq<Option<int>>, from: nat, limit: nat): (r: Option<nat>)
    ensures r.Some? ==>
      && from <= r.value <= limit
      && Arrival(connacks, r.value).Some?
      && forall t :: from <= t < r.value ==> Arrival(connacks, t).None?
    ensures r.None? ==> forall t :: from <= t <= limit ==> Arrival(connacks, t).None?
    decreases limit - from
  {
    if from > limit then None
    else if Arrival(connacks, from).Some? then Some(from)
    else FirstArrival(connacks, from + 1, limit)
  }

  /** A tick at which a CONNACK arrives, after ticks at which none did, is the first arrival. */
  lemma {:induction false} FirstArrivalAt(connacks: seq<Option<int>>, from: nat, limit: nat, t: nat)
    requires from <= t <= limit && Arrival(connacks, t).Some?
    requires forall j :: from <= j < t ==> Arrival(connacks, j).None?
    ensures FirstArrival(connacks, from, limit) == Some(t)
    decreases t - from
  {
    if from < t {
      FirstArrivalAt(connacks, from + 1, limit, t);
    }
  }

  /** The number of ticks the wait loop may run for a timeout in seconds. */
  function Limit(timeout: int): nat {
    if timeout > 0 then TICKS_PER_SECOND * timeout else 0
  }

  /** The connection flags after the CONNACK callback has seen `rc`. */
  function AfterConnack(rc: int): (flags: (bool, Option<string>))
    ensures flags.0 <==> rc == 0
    ensures flags.1.None? <==> rc == 0
  {
    if rc == 0 then (true, None) else (false, Some(ConnackError(rc)))
  }

  /** The flags after a tick at which `arrival` may have arrived. */
  function Deliver(flags: (bool, Option<string>), arrival: Option<int>): (bool, Option<string>) {
    match arrival
    case None => flags
    case Some(rc) => AfterConnack(rc)
  }

  // ---------------------------------------------------------------------------
  // Error texts of connect

  /** `server:port`, as the error messages print it. */
  function Endpoint(server: string, port: int): string {
    server + ":" + IntToDecimal(port)
  }

  /** What the message of a failed connection starts with. */
  function FailurePrefix(server: string, port: int): string {
    "Failed to connect to MQTT broker at " + Endpoint(server, port) + ": "
  }

  function ConnectFailedText(server: string, port: int, reason: string): (s: string)
    ensures Contains(s, reason)
  {
    var head := FailurePrefix(server, port);
    ContainsMiddle(head, reason, "");
    assert head + reason + "" == head + reason;
    head + reason
  }

  function TimedOutText(server: string, port: int, timeout: int): (s: string)
    ensures Contains(s, "timed out")
  {
    var head := "Connection to MQTT broker at " + Endpoint(server, port) + " ";
    var tail := " after " + IntToDecimal(timeout) + " seconds";
    ContainsMiddle(head, "timed out", tail);
    head + "timed out" + tail
  }

  // ---------------------------------------------------------------------------
  // The wait for the CONNACK

  /** How the wait loop of `connect` ends, from the flags it starts with: the
      number of ticks slept and the flags it leaves. A flag that is already
      set ends the wait at tick 0; otherwise the wait ends at the first
      CONNACK within the window, or at the end of the window with neither
      flag set. */
  function WaitOutcome(flags0: (bool, Option<string>), connacks: seq<Option<int>>, limit: nat): (bool, Option<string>, nat) {
    if flags0.0 || flags0.1.Some? then
      var f := Deliver(flags0, Arrival(connacks, 0));
      (f.0, f.1, 0)
    else
      match FirstArrival(connacks, 0, limit)
      case Some(t) =>
        var f := AfterConnack(Arrival(connacks, t).value);
        (f.0, f.1, t)
      case None => (false, None, limit)
  }

  /** From a fresh client the wait does not outlast the timeout, and it ends
      with a flag set exactly when a CONNACK arrived in the window: it stops
      at the first CONNACK, connected exactly when that CONNACK accepted and
      refused with its reason otherwise, and runs to the end of the window
      when none comes. */
  lemma WaitFromFresh(connacks: seq<Option<int>>, limit: nat)
    ensures var (c, e, w) := WaitOutcome((false, None), connacks, limit);
      && w <= limit
      && ((c || e.Some?) <==> exists t :: 0 <= t <= limit && Arrival(connacks, t).Some?)
      && (c ==> Arrival(connacks, w) == Some(0))
      && (e.Some? ==> exists rc :: rc != 0 && Arrival(connacks, w) == Some(rc) && e == Some(ConnackError(rc)))
      && (forall t :: 0 <= t < w ==> Arrival(connacks, t).None?)
      && (!c && e.None? ==> w == limit)
  {
    var (c, e, w) := WaitOutcome((false, None), connacks, limit);
    match FirstArrival(connacks, 0, limit)
    case Some(t) =>
      var rc := Arrival(connacks, t).value;
      if e.Some? {
        assert rc != 0 && Arrival(connacks, w) == Some(rc) && e == Some(ConnackError(rc));
      }
    case None =>
  }

  /** A client left connected or refused by an earlier `connect` waits no
      ticks, and only a CONNACK during the connect call itself changes its flags. */
  lemma WaitWhenSettled(flags0: (bool, Option<string>), connacks: seq<Option<int>>, limit: nat)
    requires flags0.0 || flags0.1.Some?
    ensures var (c, e, w) := WaitOutcome(flags0, connacks, limit);
      && w == 0
      && (Arrival(connacks, 0).None? ==> (c, e) == flags0)
  {
  }

  /** What `connect` reports once the wait has ended with these flags. */
  function Verdict(server: string, port: int, connected: bool, error: Option<string>, timeout: int): ConnectResult {
    if connected then Connected
    else if error.Some? then ConnectionFailed(ConnectFailedText(server, port, error.value))
    else TimedOut(TimedOutText(server, port, timeout))
  }

  /** The three outcomes of `connect` once the socket is reached: connected
      exactly when the flag is set; a failed connection exactly when a
      refusal was recorded, its message naming the broker once and then the
      refusal's reason; a timeout otherwise. */
  lemma VerdictCases(server: string, port: int, connected: bool, error: Option<string>, timeout: int)
    ensures var r := Verdict(server, port, connected, error, timeout);
      && (r.Connected? <==> connected)
      && (r.ConnectionFailed? <==> !connected && error.Some?)
      && (r.ConnectionFailed? ==>
            var prefix := FailurePrefix(server, port);
            |prefix| <= |r.message| && r.message[..|prefix|] == prefix && r.message[|prefix|..] == error.value)
      && (r.TimedOut? ==> Contains(r.message, "timed out"))
  {
  }

  /** `connect` as written: the ConnectionError raised for a refused CONNACK is
      itself an OSError, so the clause for socket errors below it catches the
      error and wraps its message a second time. */
  function VerdictAsWritten(server: string, port: int, connected: bool, error: Option<string>, timeout: int): ConnectResult {
    match Verdict(server, port, connected, error, timeout)
    case ConnectionFailed(m) => ConnectionFailed(ConnectFailedText(server, port, m))
    case other => other
  }

  /** As written, a refusal's message names the broker twice, so what follows
      the single prefix is not the refusal's reason. */
  lemma RefusalWrappedTwice(server: string, port: int, rc: int, timeout: int)
    requires rc != 0
    ensures var r := VerdictAsWritten(server, port, false, Some(ConnackError(rc)), timeout);
      var prefix := FailurePrefix(server, port);
      && r.ConnectionFailed?
      && r.message == prefix + prefix + ConnackError(rc)
      && r.message[|prefix|..] != ConnackError(rc)
      && r != Verdict(server, port, false, Some(ConnackError(rc)), timeout)
  {
    var prefix := FailurePrefix(server, port);
    var r := VerdictAsWritten(server, port, false, Some(ConnackError(rc)), timeout);
    assert r.message == prefix + (prefix + ConnackError(rc));
    assert r.message[|prefix|..] == prefix + ConnackError(rc);
    assert |prefix| > 0;
  }

  // ---------------------------------------------------------------------------
  // The client

  class MeshtasticMqttClient {
    const server: string
    const port: int
    const username: string
    const password: string
    /** The paho-mqtt client object, once `connect` has made one. */
    var client: Option<PahoClient>
    var connected: bool
    var connectionError: Option<string>
    /** Every call made into paho-mqtt, in order. */
    var calls: seq<PahoCall>

    constructor (server: string, port: int, username: string, password: string)
      ensures this.server == server && this.port == port
      ensures this.username == username && this.password == password
      ensures client == None && !connected && connectionError == None
      ensures calls == []
    {
      this.server := server;
      this.port := port;
      this.username := username;
      this.password := password;
      client := None;
      connected := false;
      connectionError := None;
      calls := [];
    }

    /** Credentials are installed only when both username and password are non-empty. */
    function InstalledCredentials(): Option<Credentials> {
      if username != "" && password != "" then Some(Credentials(username, password)) else None
    }

    /** `_on_connect`: the broker's CONNACK arrived with return code `rc`. */
    method OnConnect(rc: int)
      modifies this`connected, this`connectionError
      ensures connected <==> rc == 0
      ensures rc == 0 ==> connectionError == None
      ensures rc != 0 ==> connectionError == Some(ConnackError(rc))
    {
      if rc == 0 {
        connected := true;
        connectionError := None;
      } else {
        connected := false;
        connectionError := Some(ConnackError(rc));
      }
    }

    /** `connect`: makes the paho client, installs credentials, connects and
        starts the network loop, then waits for the CONNACK. `waited` is the
        number of ticks slept. The flags are not reset first, so a flag left
        by an earlier call ends the wait at once. A socket-level TimeoutError
        is let through as it is; any other OSError becomes a ConnectionError.
        A refusal is reported with its message wrapped once, as `Verdict`
        says: this is the corrected behaviour. The code as written wraps it
        twice, as `VerdictAsWritten` says. */
    method Connect(timeout: int, socket: SocketOutcome, connacks: seq<Option<int>>)
      returns (r: ConnectResult, ghost waited: nat)
      modifies this`client, this`connected, this`connectionError, this`calls
      ensures client == Some(PahoClient(InstalledCredentials()))
      ensures calls == old(calls) + [NewClient]
        + (if InstalledCredentials().Some? then [SetCredentials(username, password)] else [])
        + [ConnectCall(server, port, KEEPALIVE)]
        + (if socket.Reached? then [LoopStart] else [])
      ensures !socket.Reached? ==>
        connected == old(connected) && connectionError == old(connectionError) && waited == 0
      ensures socket.OsError? ==> r == ConnectionFailed(ConnectFailedText(server, port, socket.reason))
      ensures socket.OsTimeout? ==> r == TimedOut(socket.reason)
      ensures socket.OtherFailure? ==> r == OtherError(socket.reason)
      ensures socket.Reached? ==>
        && (connected, connectionError, waited)
           == WaitOutcome((old(connected), old(connectionError)), connacks, Limit(timeout))
        && r == Verdict(server, port, connected, connectionError, timeout)
    {
      client := Some(PahoClient(InstalledCredentials()));
      calls := calls + [NewClient];
      if InstalledCredentials().Some? {
        calls := calls + [SetCredentials(username, password)];
      }
      calls := calls + [ConnectCall(server, port, KEEPALIVE)];
      match socket {
        case OsTimeout(reason) =>
          r, waited := TimedOut(reason), 0;
        case OsError(reason) =>
          r, waited := ConnectionFailed(ConnectFailedText(server, port, reason)), 0;
        case OtherFailure(reason) =>
          r, waited := OtherError(reason), 0;
        case Reached =>
          calls := calls + [LoopStart];
          waited := AwaitConnack(timeout, connacks);
          r := Verdict(server, port, connected, connectionError, timeout);
      }
    }

    /** The wait loop of `connect`: a CONNACK may arrive during the connect
        call (tick 0) or during any 0.1 s sleep, and the loop stops once a
        flag is set or the timeout has passed. */
    method AwaitConnack(timeout: int, connacks: seq<Option<int>>) returns (ghost waited: nat)
      modifies this`connected, this`connectionError
      ensures (connected, connectionError, waited)
        == WaitOutcome((old(connected), old(connectionError)), connacks, Limit(timeout))
    {
      ghost var unsettled := !connected && connectionError.None?;
      ghost var flags0 := (connected, connectionError);
      var arrival := Arrival(connacks, 0);
      if arrival.Some? {
        OnConnect(arrival.value);
      }
      var limit := Limit(timeout);
      var elapsed := 0;
      while !connected && connectionError.None? && elapsed < limit
        invariant 0 <= elapsed <= limit
        invariant !unsettled ==>
          elapsed == 0 && (connected, connectionError) == Deliver(flags0, Arrival(connacks, 0))
        invariant unsettled && !connected && connectionError.None? ==>
          forall t :: 0 <= t <= elapsed ==> Arrival(connacks, t).None?
        invariant unsettled && (connected || connectionError.Some?) ==>
          && FirstArrival(connacks, 0, limit) == Some(elapsed)
          && (connected, connectionError) == AfterConnack(Arrival(connacks, elapsed).value)
        decreases limit - elapsed
      {
        elapsed := elapsed + 1;  // time.sleep(0.1)
        arrival := Arrival(connacks, elapsed);
        if arrival.Some? {
          FirstArrivalAt(connacks, 0, limit, elapsed);
          OnConnect(arrival.value);
        }
      }
      waited := elapsed;
    }

    /** `publish`: refuses unless connected, then refuses a payload that is
        not bytes, then hands topic and payload to paho unchanged at QoS 1 and
        waits for the broker's acknowledgement only when paho accepted it. */
    method Publish(topic: string, payload: PayloadArg, rc: int) returns (r: PublishResult)
      modifies this`calls
      ensures !connected || client.None? ==> r == NotConnected(NOT_CONNECTED_TEXT) && calls == old(calls)
      ensures connected && client.Some? && payload.NotBytes? ==>
        r == InvalidPayload(NOT_BYTES_TEXT) && calls == old(calls)
      ensures connected && client.Some? && payload.Bytes? ==>
        && calls == old(calls) + [PublishCall(topic, payload.data, QOS_AT_LEAST_ONCE)]
             + (if rc == MQTT_ERR_SUCCESS then [WaitForPublish] else [])
        && r == (if rc == MQTT_ERR_SUCCESS then Published
                 else PublishFailed("Failed to publish message: " + PublishError(rc)))
    {
      if !connected || client.None? {
        return NotConnected(NOT_CONNECTED_TEXT);
      }
      if payload.NotBytes? {
        return InvalidPayload(NOT_BYTES_TEXT);
      }
      calls := calls + [PublishCall(topic, payload.data, QOS_AT_LEAST_ONCE)];
      if rc != MQTT_ERR_SUCCESS {
        return PublishFailed("Failed to publish message: " + PublishError(rc));
      }
      calls := calls + [WaitForPublish];
      r := Published;
    }

    /** `disconnect`: never raises. Without a paho client it does nothing;
        otherwise it stops the loop and disconnects, clears `connected` only if
        both succeeded, and releases the paho client in every case. */
    method Disconnect(teardown: Teardown)
      modifies this`client, this`connected, this`calls
      ensures client == None
      ensures old(client).None? ==> connected == old(connected) && calls == old(calls)
      ensures old(client).Some? ==>
        && calls == old(calls) + (if teardown.LoopStopRaises? then [LoopStop] else [LoopStop, DisconnectCall])
        && connected == (old(connected) && !teardown.Clean?)
    {
      if client.Some? {
        calls := calls + [LoopStop];
        if !teardown.LoopStopRaises? {
          calls := calls + [DisconnectCall];
          if teardown.Clean? {
            connected := false;
          }
        }
        // finally:
        client := None;
      }
    }
  }

  // ---------------------------------------------------------------------------
  // The scenarios of the client's unit tests, stated against the contracts

  method ConnectThenPublish(topic: string, data: seq<Utf8.byte>) returns (c: MeshtasticMqttClient)
    ensures c.connected && c.client == Some(PahoClient(Some(Credentials("testuser", "testpass"))))
    ensures c.calls == [NewClient, SetCredentials("testuser", "testpass"),
                        ConnectCall("mqtt.example.com", 1883, KEEPALIVE), LoopStart,
                        PublishCall(topic, data, QOS_AT_LEAST_ONCE), WaitForPublish]
  {
    c := new MeshtasticMqttClient("mqtt.example.com", 1883, "testuser", "testpass");
    var r, _ := c.Connect(1, Reached, [Some(0)]);
    assert r == Connected;
    var p := c.Publish(topic, Bytes(data), MQTT_ERR_SUCCESS);
    assert p == Published;
  }

  method BadCredentialsScenario() returns (r: ConnectResult)
    ensures r.ConnectionFailed? && Contains(r.message, "bad username or password")
  {
    var c := new MeshtasticMqttClient("mqtt.example.com", 1883, "testuser", "testpass");
    ghost var waited;
    r, waited := c.Connect(1, Reached, [Some(4)]);
    ConnackBadCredentials();
    ContainsWithin(ConnectFailedText(c.server, c.port, ConnackError(4)), ConnackError(4), "bad username or password");
  }

  method TimeoutScenario() returns (r: ConnectResult, ghost waited: nat)
    ensures r.TimedOut? && Contains(r.message, "timed out")
    ensures waited == 10
  {
    var c := new MeshtasticMqttClient("mqtt.example.com", 1883, "testuser", "testpass");
    r, waited := c.Connect(1, Reached, []);
  }

  method PublishGuards() returns (before: PublishResult, notBytes: PublishResult)
    ensures before == NotConnected(NOT_CONNECTED_TEXT)
    ensures notBytes == InvalidPayload(NOT_BYTES_TEXT)
  {
    var c := new MeshtasticMqttClient("mqtt.example.com", 1883, "testuser", "testpass");
    before := c.Publish("test/topic", NotBytes, MQTT_ERR_SUCCESS);
    var r, _ := c.Connect(1, Reached, [Some(0)]);
    notBytes := c.Publish("test/topic", NotBytes, MQTT_ERR_SUCCESS);
  }

  method DisconnectTwice(teardown: Teardown) returns (c: MeshtasticMqttClient)
    ensures c.client == None && !c.connected
    ensures c.calls == [NewClient, SetCredentials("testuser", "testpass"),
                        ConnectCall("mqtt.example.com", 1883, KEEPALIVE), LoopStart, LoopStop, DisconnectCall]
  {
    c := new MeshtasticMqttClient("mqtt.example.com", 1883, "testuser", "testpass");
    var r, _ := c.Connect(1, Reached, [Some(0)]);
    c.Disconnect(Clean);
    c.Disconnect(teardown);
  }
}
