/**
 * `MqttClientManager`: owns the MQTT client, keeps a logical connected flag, subscribes on
 * connect, publishes heartbeats and reconnects from a daemon timer.
 *
 * The MQTT library is foreign. The client is present or absent, and when present it is
 * connected or not. What the manager asks of the client (connect, publish, subscribe,
 * disconnect) is appended to `outbox`. Tasks started with `Task.Run(ConnectAsync)` are
 * counted in `pendingConnects`; `ConnectAsync` runs one of them, and the outcome of the
 * factory and of the connect call are its parameters. The two callbacks are present or
 * absent, and what they are invoked with is appended to `callbacks`. The daemon timer is
 * absent or armed for a number of seconds.
 *
 * Every event is one atomic step. Each step is a function on a `Manager` value, where the
 * properties the source promises are stated; the class's methods update the fields in
 * place and end in the state that function gives.
 *
 * Finding the manager disconnected, `DaemonFunc` drops its timer before it starts a
 * reconnect, and only `OnMqttConnected` creates a new one, so a reconnect that fails is
 * never retried. `DaemonStep` models the code as written; `DaemonStepRetrying` keeps the
 * timer and so keeps polling until a connect succeeds.
 */
module ClientManager {
  import opened Wrappers
  import opened Envelope

  datatype QoS = AtMostOnce | AtLeastOnce | ExactlyOnce

  /** A message payload: the UTF-8 bytes of a text, or raw bytes. */
  datatype Payload = Text(text: string) | Bytes(bytes: seq<bv8>)

  /** `MqttApplicationMessage(topic, payload, qos, retain)`. */
  datatype AppMessage = AppMessage(topic: string, payload: Payload, qos: QoS, retain: bool)

  /** `MqttClientTcpOptions`. */
  datatype ConnectOptions = ConnectOptions(
    server: Option<string>, port: int, clientId: string, userName: Option<string>,
    password: Option<string>, will: AppMessage, cleanSession: bool)

  /** What the manager asks of the client. */
  datatype Request =
    | ConnectRequest(options: ConnectOptions)
    | PublishRequest(message: AppMessage)
    | SubscribeRequest(topic: string, qos: QoS)
    | DisconnectRequest

  /** `_mqttClient`: null, or a client that is or is not connected. */
  datatype ClientState = NoClient | Client(isConnected: bool)

  /** `_daemonTimer`: null, or a one-shot timer due after some seconds. */
  datatype TimerState = NoTimer | Armed(dueSeconds: int)

  /** An invocation of `_msgAction` or `_connAction`. */
  datatype Callback = MessageCallback(message: string) | ConnectCallback(connected: bool)

  /** The settable properties. */
  datatype Settings = Settings(
    enableHeartBeat: bool, publishTopic: string, subscribeTopic: string, heartbeatTopic: string,
    lostPayLoadCmd: string, lostPayLoadTopic: string, daemonInterval: int,
    brokerAddress: Option<string>, brokerPort: int, brokerUserName: Option<string>,
    brokerPassword: Option<string>)

  /** The property defaults: heartbeat on, empty topics, a five-second daemon. */
  function DefaultSettings(): Settings {
    Settings(true, "", "", "", "", "", 5, None, 0, None, None)
  }

  /** The fields of a manager, as one value. */
  datatype Manager = Manager(
    client: ClientState, mqttConnected: bool, timer: TimerState, outbox: seq<Request>,
    pendingConnects: nat, hasMsgAction: bool, hasConnAction: bool, callbacks: seq<Callback>,
    disposed: bool, settings: Settings, clientId: string)

  /** The `MqttConnected` getter: the logical flag, and a client that is there and connected. */
  predicate Connected(m: Manager) {
    m.mqttConnected && m.client.Client? && m.client.isConnected
  }

  /** The will message `ConnectAsync` registers: `{LostPayLoadCmd: LostPayLoadTopic}` on the publish topic. */
  function WillMessage(s: Settings): (w: AppMessage)
    ensures w.topic == s.publishTopic && w.qos == ExactlyOnce && !w.retain
    ensures w.payload == Text(WillPayload(s.lostPayLoadCmd, s.lostPayLoadTopic))
  {
    AppMessage(s.publishTopic, Text(WillPayload(s.lostPayLoadCmd, s.lostPayLoadTopic)), ExactlyOnce, false)
  }

  /** The heartbeat: the single byte 0 on the heartbeat topic, at most once. */
  function Heartbeat(s: Settings): AppMessage {
    AppMessage(s.heartbeatTopic, Bytes([0]), AtMostOnce, false)
  }

  /** The connect request `ConnectAsync` sends: the broker settings, the client id, the will and a clean session. */
  function ConnectRequestOf(s: Settings, clientId: string): Request {
    ConnectRequest(ConnectOptions(
      s.brokerAddress, s.brokerPort, clientId, s.brokerUserName, s.brokerPassword, WillMessage(s), true))
  }

  /** Append a callback invocation when the callback is set (`?.Invoke`). */
  function Notify(present: bool, callbacks: seq<Callback>, c: Callback): (r: seq<Callback>)
    ensures present ==> r == callbacks + [c]
    ensures !present ==> r == callbacks
  {
    if present then callbacks + [c] else callbacks
  }

  // ---------------------------------------------------------------- steps

  /** `Start`: start one connect task. Nothing else changes. */
  function StartStep(m: Manager): (r: Manager)
    ensures r.pendingConnects == m.pendingConnects + 1
    ensures r.(pendingConnects := m.pendingConnects) == m
  {
    m.(pendingConnects := m.pendingConnects + 1)
  }

  /** `Stop`: drop the timer, ask a present client to disconnect, and drop the client. */
  function StopStep(m: Manager): (r: Manager)
    ensures r.timer == NoTimer && r.client == NoClient && !Connected(r)
    ensures r.outbox == if m.client.Client? then m.outbox + [DisconnectRequest] else m.outbox
    ensures r.(timer := m.timer, client := m.client, outbox := m.outbox) == m
  {
    m.(timer := NoTimer, client := NoClient,
       outbox := if m.client.Client? then m.outbox + [DisconnectRequest] else m.outbox)
  }

  /**
   * `ConnectAsync`, run by one connect task. The factory result replaces the client; when
   * it is null nothing else happens. Otherwise the connect request carries the will message
   * and a clean session. A connect that throws clears the logical flag and is not reported
   * to anyone. A connect that succeeds leaves a connected client, and the client then raises
   * `Connected` (`ConnectedStep`).
   */
  function ConnectStep(m: Manager, factoryOk: bool, connectThrows: bool): (r: Manager)
    requires m.pendingConnects > 0
    ensures r.pendingConnects == m.pendingConnects - 1
    ensures !factoryOk ==> r.client == NoClient && r.outbox == m.outbox && !Connected(r)
    ensures factoryOk ==> r.outbox == m.outbox + [ConnectRequestOf(m.settings, m.clientId)]
    ensures factoryOk && connectThrows ==> !r.mqttConnected && !Connected(r)
    ensures factoryOk && !connectThrows ==> r.client == Client(true) && r.mqttConnected == m.mqttConnected
    ensures r.callbacks == m.callbacks && r.timer == m.timer
    ensures r.settings == m.settings && r.clientId == m.clientId
  {
    var m1 := m.(pendingConnects := m.pendingConnects - 1);
    if !factoryOk then m1.(client := NoClient)
    else
      var m2 := m1.(client := Client(false), outbox := m1.outbox + [ConnectRequestOf(m.settings, m.clientId)]);
      if connectThrows then m2.(mqttConnected := false) else m2.(client := Client(true))
  }

  /** `PublishHeartbeat`: when enabled, ask a present client to publish one heartbeat. */
  function HeartbeatStep(m: Manager): (r: Manager)
    ensures m.settings.enableHeartBeat && m.client.Client? ==> r.outbox == m.outbox + [PublishRequest(Heartbeat(m.settings))]
    ensures !m.settings.enableHeartBeat || m.client.NoClient? ==> r == m
    ensures r.(outbox := m.outbox) == m
  {
    if !m.settings.enableHeartBeat || m.client.NoClient? then m
    else m.(outbox := m.outbox + [PublishRequest(Heartbeat(m.settings))])
  }

  /**
   * `Publish`: ask a present client to publish the text on the publish topic, exactly once.
   * A null text makes the encoder throw, which is caught: nothing is published.
   */
  function PublishStep(m: Manager, message: Option<string>): (r: Manager)
    ensures message.Some? && m.client.Client? ==>
      r.outbox == m.outbox + [PublishRequest(AppMessage(m.settings.publishTopic, Text(message.value), ExactlyOnce, false))]
    ensures message.None? || m.client.NoClient? ==> r == m
    ensures r.(outbox := m.outbox) == m
  {
    if message.None? || m.client.NoClient? then m
    else m.(outbox := m.outbox + [PublishRequest(AppMessage(m.settings.publishTopic, Text(message.value), ExactlyOnce, false))])
  }

  /** `OnMessageReceived`: only a message on the subscribe topic reaches the message callback. */
  function MessageReceivedStep(m: Manager, topic: string, payload: string): (r: Manager)
    ensures topic != m.settings.subscribeTopic ==> r == m
    ensures topic == m.settings.subscribeTopic ==>
      r == m.(callbacks := Notify(m.hasMsgAction, m.callbacks, MessageCallback(payload)))
  {
    if topic != m.settings.subscribeTopic then m
    else m.(callbacks := Notify(m.hasMsgAction, m.callbacks, MessageCallback(payload)))
  }

  /**
   * `OnMqttConnected`: set the flag, ask a present client to subscribe to the subscribe
   * topic exactly once and, when heartbeats are enabled, to publish one heartbeat; arm a new
   * daemon timer and report `true`.
   */
  function ConnectedStep(m: Manager): (r: Manager)
    ensures r.mqttConnected
    ensures r.timer == Armed(m.settings.daemonInterval)
    ensures m.client.Client? ==>
      r.outbox == m.outbox + [SubscribeRequest(m.settings.subscribeTopic, ExactlyOnce)]
                  + (if m.settings.enableHeartBeat then [PublishRequest(Heartbeat(m.settings))] else [])
    ensures m.client.NoClient? ==> r.outbox == m.outbox
    ensures r.callbacks == Notify(m.hasConnAction, m.callbacks, ConnectCallback(true))
    ensures r.client == m.client && r.pendingConnects == m.pendingConnects
  {
    var m1 := m.(mqttConnected := true);
    var m2 := if m1.client.Client? then m1.(outbox := m1.outbox + [SubscribeRequest(m1.settings.subscribeTopic, ExactlyOnce)]) else m1;
    var m3 := HeartbeatStep(m2);
    var m4 := m3.(timer := Armed(m3.settings.daemonInterval));
    m4.(callbacks := Notify(m4.hasConnAction, m4.callbacks, ConnectCallback(true)))
  }

  /** `OnMqttDisconnected`: clear the flag and report `false`; the timer and the client are left alone. */
  function DisconnectedStep(m: Manager): (r: Manager)
    ensures !r.mqttConnected && !Connected(r)
    ensures r.callbacks == Notify(m.hasConnAction, m.callbacks, ConnectCallback(false))
    ensures r.(mqttConnected := m.mqttConnected, callbacks := m.callbacks) == m
  {
    m.(mqttConnected := false, callbacks := Notify(m.hasConnAction, m.callbacks, ConnectCallback(false)))
  }

  /**
   * `DaemonFunc`, run when the daemon timer fires (so the timer is there): when not
   * connected, drop the timer and start exactly one connect task; otherwise publish one
   * heartbeat and re-arm the timer.
   */
  function DaemonStep(m: Manager): (r: Manager)
    requires m.timer.Armed?
    ensures !Connected(m) ==>
      r.timer == NoTimer && r.pendingConnects == m.pendingConnects + 1 && r.outbox == m.outbox
    ensures Connected(m) ==>
      && r.pendingConnects == m.pendingConnects
      && r.outbox == m.outbox + (if m.settings.enableHeartBeat then [PublishRequest(Heartbeat(m.settings))] else [])
      && r.timer == Armed(m.settings.daemonInterval)
    ensures r.client == m.client && r.mqttConnected == m.mqttConnected && r.callbacks == m.callbacks
    ensures r.settings == m.settings && r.clientId == m.clientId
  {
    if !Connected(m) then m.(timer := NoTimer, pendingConnects := m.pendingConnects + 1)
    else
      var m1 := HeartbeatStep(m);
      m1.(timer := Armed(m1.settings.daemonInterval))
  }

  /**
   * `DaemonFunc` with the timer kept while a reconnect is under way: when not connected,
   * start exactly one connect task and re-arm the timer, so a failed attempt is followed by
   * another at the next tick. When connected it does what `DaemonStep` does.
   */
  function DaemonStepRetrying(m: Manager): (r: Manager)
    requires m.timer.Armed?
    ensures !Connected(m) ==>
      && r.timer == Armed(m.settings.daemonInterval)
      && r.pendingConnects == m.pendingConnects + 1 && r.outbox == m.outbox
    ensures Connected(m) ==> r == DaemonStep(m)
    ensures r.client == m.client && r.mqttConnected == m.mqttConnected && r.callbacks == m.callbacks
    ensures r.settings == m.settings && r.clientId == m.clientId
  {
    if !Connected(m) then m.(timer := Armed(m.settings.daemonInterval), pendingConnects := m.pendingConnects + 1)
    else DaemonStep(m)
  }

  /** `Dispose(disposing)`: the first call drops the callbacks (when disposing) and stops; later calls do nothing. */
  function DisposeStep(m: Manager, disposing: bool): (r: Manager)
    ensures m.disposed ==> r == m
    ensures !m.disposed ==> r.disposed && r.timer == NoTimer && r.client == NoClient
    ensures !m.disposed && disposing ==> !r.hasMsgAction && !r.hasConnAction
  {
    if m.disposed then m
    else
      var m1 := if disposing then m.(hasMsgAction := false, hasConnAction := false) else m;
      StopStep(m1).(disposed := true)
  }

  // ---------------------------------------------------------------- the class

  class MqttClientManager {
    var client: ClientState
    var mqttConnected: bool
    var timer: TimerState
    var outbox: seq<Request>
    var pendingConnects: nat
    var hasMsgAction: bool
    var hasConnAction: bool
    var callbacks: seq<Callback>
    var disposed: bool
    var settings: Settings
    /** `_clientId`, a fresh GUID per instance. */
    const clientId: string

    /** The fields as a `Manager` value. */
    function State(): Manager
      reads this
    {
      Manager(client, mqttConnected, timer, outbox, pendingConnects, hasMsgAction, hasConnAction,
              callbacks, disposed, settings, clientId)
    }

    constructor(id: string)
      ensures State() == Manager(NoClient, false, NoTimer, [], 0, false, false, [], false, DefaultSettings(), id)
    {
      client := NoClient;
      mqttConnected := false;
      timer := NoTimer;
      outbox := [];
      pendingConnects := 0;
      hasMsgAction := false;
      hasConnAction := false;
      callbacks := [];
      disposed := false;
      settings := DefaultSettings();
      clientId := id;
    }

    /** `SetMessageAction`: set (or, with null, clear) the message callback. */
    method SetMessageAction(present: bool)
      modifies this
      ensures State() == old(State()).(hasMsgAction := present)
    {
      hasMsgAction := present;
    }

    /** `SetConnectAction`: set (or, with null, clear) the connection callback. */
    method SetConnectAction(present: bool)
      modifies this
      ensures State() == old(State()).(hasConnAction := present)
    {
      hasConnAction := present;
    }

    method Start()
      modifies this
      ensures State() == StartStep(old(State()))
    {
      pendingConnects := pendingConnects + 1;
    }

    method Stop()
      modifies this
      ensures State() == StopStep(old(State()))
    {
      timer := NoTimer;
      if client.Client? {
        outbox := outbox + [DisconnectRequest];
      }
      client := NoClient;
    }

    method ConnectAsync(factoryOk: bool, connectThrows: bool)
      requires pendingConnects > 0
      modifies this
      ensures State() == ConnectStep(old(State()), factoryOk, connectThrows)
    {
      pendingConnects := pendingConnects - 1;
      if !factoryOk {
        client := NoClient;
        return;
      }
      client := Client(false);
      var will := AppMessage(settings.publishTopic, Text(WillPayload(settings.lostPayLoadCmd, settings.lostPayLoadTopic)),
                             ExactlyOnce, false);
      var options := ConnectOptions(settings.brokerAddress, settings.brokerPort, clientId, settings.brokerUserName,
                                    settings.brokerPassword, will, true);
      outbox := outbox + [ConnectRequest(options)];
      if connectThrows {
        mqttConnected := false;
      } else {
        client := Client(true);
      }
    }

    method Publish(message: Option<string>)
      modifies this
      ensures State() == PublishStep(old(State()), message)
    {
      if message.None? {
        return;
      }
      if client.Client? {
        outbox := outbox + [PublishRequest(AppMessage(settings.publishTopic, Text(message.value), ExactlyOnce, false))];
      }
    }

    method OnMessageReceived(topic: string, payload: string)
      modifies this
      ensures State() == MessageReceivedStep(old(State()), topic, payload)
    {
      if settings.subscribeTopic != topic {
        return;
      }
      if hasMsgAction {
        callbacks := callbacks + [MessageCallback(payload)];
      }
    }

    method OnMqttConnected()
      modifies this
      ensures State() == ConnectedStep(old(State()))
    {
      mqttConnected := true;
      if client.Client? {
        outbox := outbox + [SubscribeRequest(settings.subscribeTopic, ExactlyOnce)];
      }
      PublishHeartbeat();
      timer := Armed(settings.daemonInterval);
      if hasConnAction {
        callbacks := callbacks + [ConnectCallback(true)];
      }
    }

    method OnMqttDisconnected()
      modifies this
      ensures State() == DisconnectedStep(old(State()))
    {
      mqttConnected := false;
      if hasConnAction {
        callbacks := callbacks + [ConnectCallback(false)];
      }
    }

    /** The daemon timer's callback, so the timer is there when it runs. */
    method DaemonFunc()
      requires timer.Armed?
      modifies this
      ensures State() == DaemonStep(old(State()))
    {
      if !(mqttConnected && client.Client? && client.isConnected) {
        timer := NoTimer;
        pendingConnects := pendingConnects + 1;
        return;
      }
      PublishHeartbeat();
      if timer.Armed? {
        timer := Armed(settings.daemonInterval);
      }
    }

    /** `DaemonFunc` keeping its timer while it reconnects. */
    method DaemonFuncRetrying()
      requires timer.Armed?
      modifies this
      ensures State() == DaemonStepRetrying(old(State()))
    {
      if !(mqttConnected && client.Client? && client.isConnected) {
        timer := Armed(settings.daemonInterval);
        pendingConnects := pendingConnects + 1;
        return;
      }
      DaemonFunc();
    }

    method PublishHeartbeat()
      modifies this
      ensures State() == HeartbeatStep(old(State()))
    {
      if !settings.enableHeartBeat {
        return;
      }
      if client.Client? {
        outbox := outbox + [PublishRequest(AppMessage(settings.heartbeatTopic, Bytes([0]), AtMostOnce, false))];
      }
    }

    /** The private `Dispose(bool)`. */
    method DisposeCore(disposing: bool)
      modifies this
      ensures State() == DisposeStep(old(State()), disposing)
    {
      if !disposed {
        if disposing {
          hasMsgAction := false;
          hasConnAction := false;
        }
        Stop();
        disposed := true;
      }
    }

    /** `IDisposable.Dispose`. */
    method Dispose()
      modifies this
      ensures State() == DisposeStep(old(State()), true)
    {
      DisposeCore(true);
    }
  }

  // ---------------------------------------------------------------- properties

  /** Stopping twice is stopping once. */
  lemma StopIdempotent(m: Manager)
    ensures StopStep(StopStep(m)) == StopStep(m)
  {
  }

  /** Disposing twice is disposing once, whatever the second call's argument. */
  lemma DisposeIdempotent(m: Manager, first: bool, second: bool)
    ensures DisposeStep(DisposeStep(m, first), second) == DisposeStep(m, first)
  {
  }

  /**
   * A disconnect, then the daemon tick: exactly one connect task is started, nothing is
   * published and the timer is gone, so the daemon does not tick again until a connect
   * succeeds.
   */
  lemma DaemonAfterDisconnect(m: Manager)
    requires m.timer.Armed?
    ensures var r := DaemonStep(DisconnectedStep(m));
      && r.pendingConnects == m.pendingConnects + 1
      && r.outbox == m.outbox
      && r.timer == NoTimer
  {
  }

  /**
   * As written, a reconnect the daemon starts that fails (the factory gives null, or the
   * connect throws) leaves the manager disconnected with no daemon timer and nothing
   * reported. Only `OnMqttConnected` creates a timer, so no later tick tries again.
   */
  lemma ReconnectFailureStalls(m: Manager, factoryOk: bool, connectThrows: bool)
    requires m.timer.Armed? && !Connected(m) && (!factoryOk || connectThrows)
    ensures var r := ConnectStep(DaemonStep(m), factoryOk, connectThrows);
      && !Connected(r) && r.timer == NoTimer
      && r.pendingConnects == m.pendingConnects && r.callbacks == m.callbacks
  {
  }

  /**
   * Up to `k` ticks of the retrying daemon while disconnected, each followed by the connect
   * task it started.
   */
  function RetryRounds(m: Manager, k: nat, factoryOk: bool, connectThrows: bool): Manager
    requires m.timer.Armed?
    decreases k
  {
    if k == 0 || Connected(m) then m
    else RetryRounds(ConnectStep(DaemonStepRetrying(m), factoryOk, connectThrows), k - 1, factoryOk, connectThrows)
  }

  /**
   * With the retrying daemon, failed reconnects never stop the polling: after any number of
   * failed rounds the timer is still armed, the manager is disconnected with no task left
   * over and nothing reported, and every round with a client sent one more connect request
   * with the manager's broker settings, client id and will.
   */
  lemma {:induction false} RetryingKeepsPolling(m: Manager, k: nat, factoryOk: bool, connectThrows: bool)
    requires m.timer.Armed? && !Connected(m) && (!factoryOk || connectThrows)
    ensures var r := RetryRounds(m, k, factoryOk, connectThrows);
      && r.timer.Armed? && !Connected(r)
      && r.pendingConnects == m.pendingConnects && r.callbacks == m.callbacks
      && r.settings == m.settings && r.clientId == m.clientId
      && r.outbox == m.outbox + (if factoryOk then seq(k, _ => ConnectRequestOf(m.settings, m.clientId)) else [])
    decreases k
  {
    if k > 0 {
      var m1 := ConnectStep(DaemonStepRetrying(m), factoryOk, connectThrows);
      RetryingKeepsPolling(m1, k - 1, factoryOk, connectThrows);
      var c := ConnectRequestOf(m.settings, m.clientId);
      assert [c] + seq(k - 1, _ => c) == seq(k, _ => c);
    }
  }

  /** Up to `k` daemon ticks, ending early at a tick that drops the timer. */
  function DaemonTicks(m: Manager, k: nat): Manager
    requires m.timer.Armed?
    decreases k
  {
    if k == 0 then m
    else if Connected(m) then DaemonTicks(DaemonStep(m), k - 1)
    else DaemonStep(m)
  }

  /**
   * While connected, any number of daemon ticks keep the connection and an armed timer,
   * start no connect task, and publish one heartbeat per tick when heartbeats are enabled.
   */
  lemma {:induction false} DaemonKeepsConnection(m: Manager, k: nat)
    requires Connected(m) && m.timer.Armed?
    ensures var r := DaemonTicks(m, k);
      && Connected(r) && r.timer.Armed?
      && r.pendingConnects == m.pendingConnects && r.callbacks == m.callbacks
      && r.settings == m.settings
      && r.outbox == m.outbox + (if m.settings.enableHeartBeat then seq(k, _ => PublishRequest(Heartbeat(m.settings))) else [])
    decreases k
  {
    if k > 0 {
      var m1 := DaemonStep(m);
      DaemonKeepsConnection(m1, k - 1);
      var h := PublishRequest(Heartbeat(m.settings));
      assert [h] + seq(k - 1, _ => h) == seq(k, _ => h);
    }
  }
}
