# MqttClientHelper in Dafny

A model of the core of MqttClientHelper, a C# wrapper around an MQTT client, with two
sample roles that talk to each other through a broker. The model covers:

- the **message handlers**: `MqttMessageHandler`, the receiving role's `RecvMqttMsgHandler`
  and the sending role's `SendMqttMsgHandler`. A handler decodes a JSON envelope
  `{MqttClientCmd: topic, Paras: text}` and routes it through a topic table. The
  `TopicOperation` topic holds a second envelope `{Command: name, Paras: text}`, routed
  through a command table. The handlers publish ping, pong, on-line, off-line and bare-topic
  envelopes.
- the **worker queues** `MessageHelper` and `RecvMessageHelper`: a FIFO queue, a semaphore
  and a worker thread that raises one event per message.
- the **client manager** `MqttClientManager`: start and stop, connect with a will message,
  subscribe on connect, heartbeats, a daemon timer that reconnects, publish, and dispose.
- the two **counters** called `SendMessageHelper`. The sending role's counter publishes an
  operation envelope per value. The receiving role's counter raises the decimal text of
  each value from start to stop.
- the sending form's **ping tracker** (`buttonPing_Click`, `OnPangMsgSafePost`,
  `DisplayPingInfo`) and its two **input validators**.
- the constants of `MqttClientConstants`.

Layout, one module per file:

- `wrappers.dfy`, `text.dfy` (.NET string and `int` primitives), `json.dfy` (objects, and a
  printer/parser pair with a proved round trip), `constants.dfy`, `envelope.dfy`;
- `message_handler.dfy` (the shared handler logic), `recv_handler.dfy`, `send_handler.dfy`,
  `round_trips.dfy` (what each role does with the other's messages);
- `drain.dfy` (the worker's specification), `message_queue.dfy`, `recv_queue.dfy`;
- `client_manager.dfy`, `send_counter.dfy`, `recv_counter.dfy`, `send_form.dfy`.

Raised C# events are recorded as values: a handler's `Event`s, a queue's `delivered`
messages, a counter's `sent` texts, and a manager's `outbox` of client requests and its
`callbacks`. A C# null string is `None`.

## Model

| member | source | states |
|---|---|---|
| Text.Trim | SendMessageSample/SendForm.cs:266 | `String.Trim` returns a slice of its input whose surroundings are all white space and which neither starts nor ends with white space |
| Text.TrimIdempotent | SendMessageSample/SendForm.cs:266 | trimming a trimmed text changes nothing |
| Text.IntToDecimal | RecvMessageSample/SendMessageHelper.cs:43 | `int.ToString()` gives a '-' sign exactly for negative values, then digits |
| Text.ParseInt32RoundTrip | SendMessageSample/SendForm.cs:267 | `int.TryParse` of the decimal text of any `int` gives back that `int` |
| Text.Wrap32 | RecvMessageSample/SendMessageHelper.cs:46 | the unchecked `int` increment is the true sum modulo 2^32, and is the true sum when that is in range |
| Json.Lookup | MqttClientUtil/MqttMessageHandler.cs:49-50 | `TryGetValue` finds nothing exactly when no property has the key, and otherwise finds a property of the object |
| Json.AsInt32 | RecvMessageSample/RecvMqttMsgHandler.cs:34 | `ToObject<int>` of an in-range integer is that integer; of a null it fails |
| Json.Parse | MqttClientUtil/MqttMessageHandler.cs:37-46 | a text that parses has at least two characters, so the empty text never parses |
| Json.ParseNullable | MqttClientUtil/MqttMessageHandler.cs:101 | parsing a null or empty parameter text fails |
| Json.ParsePrint | MqttClientUtil/MqttMessageHandler.cs:229-241 | parsing the text an object was printed to gives back the same object |
| Json.PrintNonEmpty | MqttClientUtil/MqttMessageHandler.cs:31-35 | a printed object is never the empty text, so it passes the empty-message check |
| Constants.BaseTopics | MqttClientModules/MqttClientConstants.cs:18-25 | the six topics of the base table are six distinct names |
| Constants.EnvelopeKeysDistinct | MqttClientModules/MqttClientConstants.cs:11-13 | the topic key, the command key and the parameter key are distinct |
| Constants.WillIsEnvelope | MqttClientModules/MqttClientConstants.cs:12-13 | the will key is the envelope's topic key, and its value is the lost-payload topic |
| Constants.RoleTopicsDistinct | MqttClientModules/MqttClientConstants.cs:6-8 | the send, receive and heartbeat topics are three different topics |
| Envelope.StringValue | MqttClientUtil/MqttMessageHandler.cs:233 | storing a possibly-null string and reading it back gives the same string, null included |
| Envelope.TopicMessageRoundTrip | MqttClientUtil/MqttMessageHandler.cs:285-292 | a published envelope parses back to its topic and its parameter text |
| Envelope.KeyParasRoundTrip | MqttClientUtil/MqttMessageHandler.cs:229-255 | the key of a ping or pong parses back unchanged, null included |
| Envelope.MachineParasRoundTrip | MqttClientUtil/MqttMessageHandler.cs:257-283 | the machine name an on-line or off-line envelope carries parses back unchanged |
| Envelope.BareTopicMessageRoundTrip | MqttClientUtil/MqttMessageHandler.cs:285-292 | `PublishTopic` carries its topic and no parameter text |
| MessageHandler.RouteEnvelope | MqttClientUtil/MqttMessageHandler.cs:29-65 | an empty message is rejected, a message that does not parse is rejected naming it, and a routed message names a bound non-empty topic and carries its `Paras` text |
| MessageHandler.RejectionKinds | MqttClientUtil/MqttMessageHandler.cs:29-65 | every rejection is one of three: empty input, text that does not parse, or an unbound or empty name |
| MessageHandler.RouteOfPrinted | MqttClientUtil/MqttMessageHandler.cs:48-63 | a printed envelope naming a bound topic reaches exactly that handler with its `Paras` text; an unbound name gets the error naming it |
| MessageHandler.HandleTopicMessage | MqttClientUtil/MqttMessageHandler.cs:29-65 | a published envelope runs the handler bound to its topic, or raises the one unknown-topic error |
| MessageHandler.PeerNotice | MqttClientUtil/MqttMessageHandler.cs:97-146 | the on-line, off-line and lost-payload handlers raise one event: when the parameters parse, the log line is the name stored under the name key followed by the verb; otherwise the error naming the handler and the text |
| MessageHandler.HandleTopicPing | MqttClientUtil/MqttMessageHandler.cs:148-166 | a ping logs and then publishes a pong with the same key; unparsable parameters give one error |
| MessageHandler.HandleTopicPang | MqttClientUtil/MqttMessageHandler.cs:168-185 | a pong raises `OnPangMsg` with its key and publishes nothing |
| MessageHandler.HandleTopicOperation | MqttClientUtil/MqttMessageHandler.cs:187-223 | a rejected command envelope raises exactly the rejection's error |
| MessageHandler.HandleMessage | MqttClientUtil/MqttMessageHandler.cs:29-65 | a rejected envelope raises exactly the rejection's error |
| MessageHandler.BaseTopicTableKeys | MqttClientUtil/MqttMessageHandler.cs:69-81 | the base table binds exactly the six base topics, so no `Add` throws |
| RecvHandler.OnSendValueCmd | RecvMessageSample/RecvMqttMsgHandler.cs:26-41 | raises exactly one event: the error for unparsable parameters, 0 for a missing `Value`, the value of an integer `Value` |
| RecvHandler.OnlySendValueIsACommand | RecvMessageSample/RecvMqttMsgHandler.cs:14-20 | any command other than `SendValue` is rejected with the error naming it |
| RecvHandler.RecvMqttMsgHandler.constructor | MqttClientUtil/MqttMessageHandler.cs:17-21 | both tables start empty and no event has been raised |
| RecvHandler.RecvMqttMsgHandler.AddTopic | MqttClientUtil/MqttMessageHandler.cs:74-80 | `Add` binds a topic that was not bound yet |
| RecvHandler.RecvMqttMsgHandler.AddCommand | RecvMessageSample/RecvMqttMsgHandler.cs:19 | `Add` binds a command that was not bound yet |
| RecvHandler.RecvMqttMsgHandler.BaseInitActionDic | MqttClientUtil/MqttMessageHandler.cs:69-81 | the tables become the six base topics and no command |
| RecvHandler.RecvMqttMsgHandler.InitActionDic | RecvMessageSample/RecvMqttMsgHandler.cs:14-20 | the tables become the six base topics and the one command `SendValue` |
| RecvHandler.RecvMqttMsgHandler.Init | MqttClientUtil/MqttMessageHandler.cs:24-27 | `Init` gives the same tables however often it runs |
| RecvHandler.RecvMqttMsgHandler.HandleMessage | MqttClientUtil/MqttMessageHandler.cs:29-65 | appends the routed message's events and leaves the tables alone |
| RecvHandler.RecvMqttMsgHandler.PublishPing | MqttClientUtil/MqttMessageHandler.cs:229-241 | publishes one ping envelope carrying the key |
| RecvHandler.RecvMqttMsgHandler.PublishPang | MqttClientUtil/MqttMessageHandler.cs:243-255 | publishes one pong envelope carrying the key |
| RecvHandler.RecvMqttMsgHandler.PublishOnLine | MqttClientUtil/MqttMessageHandler.cs:257-269 | publishes one on-line envelope naming the machine |
| RecvHandler.RecvMqttMsgHandler.PublishOffLine | MqttClientUtil/MqttMessageHandler.cs:271-283 | publishes one off-line envelope naming the machine |
| RecvHandler.RecvMqttMsgHandler.PublishTopic | MqttClientUtil/MqttMessageHandler.cs:285-292 | publishes one envelope naming only the topic |
| SendHandler.SendMqttMsgHandler.constructor | SendMessageSample/SendMqttMsgHandler.cs:18-24 | the constructor leaves the five-topic table and no command |
| SendHandler.SendMqttMsgHandler.AddTopic | SendMessageSample/SendMqttMsgHandler.cs:72-76 | `Add` binds a topic that was not bound yet |
| SendHandler.SendMqttMsgHandler.InitActionDic | SendMessageSample/SendMqttMsgHandler.cs:66-79 | the tables become the five topics without `Ping`, and no command |
| SendHandler.SendMqttMsgHandler.HandleMessage | SendMessageSample/SendMqttMsgHandler.cs:26-62 | appends the routed message's events and leaves the tables alone |
| SendHandler.SendMqttMsgHandler.PublishPing | SendMessageSample/SendMqttMsgHandler.cs:207-219 | publishes one ping envelope carrying the key |
| SendHandler.SendMqttMsgHandler.PublishPang | SendMessageSample/SendMqttMsgHandler.cs:221-233 | publishes one pong envelope carrying the key |
| SendHandler.SendMqttMsgHandler.PublishTopic | SendMessageSample/SendMqttMsgHandler.cs:235-242 | publishes one envelope naming only the topic |
| SendHandler.SendTopicsAreBaseWithoutPing | SendMessageSample/SendMqttMsgHandler.cs:66-79 | the sending table is the base table without `Ping`, each topic bound to the same handler |
| SendHandler.PingIsUnrecognised | SendMessageSample/SendMqttMsgHandler.cs:26-62 | a ping reaching the sending role raises one unknown-topic error, and no pong is sent |
| SendHandler.OperationAlwaysFails | SendMessageSample/SendMqttMsgHandler.cs:165-201 | with no commands bound, every operation raises exactly one error |
| SendHandler.OperationNamesCommand | SendMessageSample/SendMqttMsgHandler.cs:165-201 | an operation naming a command gets the error naming that command |
| SendHandler.PangRaisesKey | SendMessageSample/SendMqttMsgHandler.cs:146-163 | a pong raises `OnPangMsg` with its key and nothing else |
| RoundTrips.SentValueReceived | SendMessageSample/SendMessageHelper.cs:65-82 | every value the sending counter publishes reaches the receiving role as exactly one `OnRecvValueMsg` with that value |
| RoundTrips.SendValueCommandRouted | RecvMessageSample/RecvMqttMsgHandler.cs:14-20 | the `SendValue` command object reaches `OnSendValueCmd` with its parameter text |
| RoundTrips.ValueParasDecoded | RecvMessageSample/RecvMqttMsgHandler.cs:26-41 | `OnSendValueCmd` decodes `{Value: v}` back to `v` |
| RoundTrips.OperationRouted | MqttClientUtil/MqttMessageHandler.cs:187-223 | the receiving role hands an operation's parameter text to its command level |
| RoundTrips.PingAnswered | MqttClientUtil/MqttMessageHandler.cs:148-166 | the receiving role answers a ping with a log line and a pong carrying the same key, null included |
| RoundTrips.PingComesBack | SendMessageSample/SendMqttMsgHandler.cs:146-163 | the receiver's answer to a ping, given to the sender, raises `OnPangMsg` with the ping's key |
| RoundTrips.RecvOnLineLogged | MqttClientUtil/MqttMessageHandler.cs:97-112 | an on-line envelope makes the receiving role log exactly the machine name it carries followed by 上线 |
| RoundTrips.RecvOffLineLogged | MqttClientUtil/MqttMessageHandler.cs:114-129 | an off-line envelope makes the receiving role log exactly the machine name it carries followed by 下线 |
| RoundTrips.SendOnLineLogged | SendMessageSample/SendMqttMsgHandler.cs:95-110 | an on-line envelope makes the sending role log the machine name followed by 上线 when `Para.RemoteServerName` is `MachineName`, and the bare verb otherwise |
| RoundTrips.SendOffLineLogged | SendMessageSample/SendMqttMsgHandler.cs:112-127 | the same for an off-line envelope and 下线 |
| RoundTrips.WillRouted | MqttClientHelper/MqttClientManager.cs:125-131 | the will payload reaches the handler bound to the lost-payload topic with no parameter text |
| RoundTrips.RecvWillReachesLostPayLoad | MqttClientUtil/MqttMessageHandler.cs:131-146 | the receiving role runs its lost-payload handler on the will payload |
| RoundTrips.SendWillReachesLostPayLoad | SendMessageSample/SendMqttMsgHandler.cs:129-144 | the sending role runs its lost-payload handler on the will payload |
| RoundTrips.RecvWillIsParseError | MqttClientUtil/MqttMessageHandler.cs:131-146 | the will payload makes the receiving role raise one parse error and never log a peer name |
| RoundTrips.SendWillIsParseError | SendMessageSample/SendMqttMsgHandler.cs:129-144 | the will payload makes the sending role raise one parse error and never log a peer name |
| Drain.Nulls | MqttClientUtil/MessageHelper.cs:82-95 | `n` picks from an empty queue give `n` nulls |
| Drain.PickStep | MqttClientUtil/MessageHelper.cs:82-95 | one more pick returns the head and removes it, or returns null from an empty queue |
| Drain.DrainedIsPicks | MqttClientUtil/MessageHelper.cs:110-123 | a worker run is one pick per permit while working, and one pick per queued message otherwise |
| Drain.DrainedIsFifo | MqttClientUtil/MessageHelper.cs:110-123 | the worker raises the queue first, in enqueue order, each message once, and only nulls after it |
| Drain.DrainConsumesOnePermitEach | MqttClientUtil/MessageHelper.cs:110-123 | every message raised consumed one permit |
| MessageQueue.MessageHelper.constructor | MqttClientUtil/MessageHelper.cs:12-16 | empty queue, no permit, no worker, nothing raised |
| MessageQueue.MessageHelper.Start | MqttClientUtil/MessageHelper.cs:40-48 | sets the working flag and starts a worker; the queue and the permits stay |
| MessageQueue.MessageHelper.Stop | MqttClientUtil/MessageHelper.cs:50-58 | with a worker, everything queued is raised before the queue is cleared; without one it is discarded, and the permits stay |
| MessageQueue.MessageHelper.AddMessage | MqttClientUtil/MessageHelper.cs:62-69 | enqueues at the tail and releases one permit |
| MessageQueue.MessageHelper.HasMessage | MqttClientUtil/MessageHelper.cs:71-80 | true exactly when the queue is not empty |
| MessageQueue.MessageHelper.WaitOne | MqttClientUtil/MessageHelper.cs:114 | takes a permit exactly when there is one |
| MessageQueue.MessageHelper.PickMessage | MqttClientUtil/MessageHelper.cs:82-95 | removes and returns the head; from an empty queue returns null and changes nothing |
| MessageQueue.MessageHelper.ClearMessage | MqttClientUtil/MessageHelper.cs:97-103 | empties the queue and leaves the permits |
| MessageQueue.MessageHelper.DoWork | MqttClientUtil/MessageHelper.cs:110-123 | the worker raises exactly `Drained` of the queue and permits it started with, and leaves the permits `PermitsAfterDrain` |
| MessageQueue.StopDeliversEverything | MqttClientUtil/MessageHelper.cs:50-58 | messages added after `Start` are all raised by `Stop`, in order, each once |
| MessageQueue.StopWithoutWorkerDiscards | MqttClientUtil/MessageHelper.cs:50-58 | `Stop` with no worker raises nothing and empties the queue, but the permits stay |
| MessageQueue.ClearedPermitDeliversNull | MqttClientUtil/MessageHelper.cs:97-103 | a permit whose message was cleared makes the next worker raise null |
| RecvQueue.RecvMessageHelper.constructor | RecvMessageSample/RecvMessageHelper.cs:12-16 | empty queue, no permit, no worker, nothing raised |
| RecvQueue.RecvMessageHelper.Start | RecvMessageSample/RecvMessageHelper.cs:40-48 | sets the working flag and starts a worker; the queue and the permits stay |
| RecvQueue.RecvMessageHelper.Stop | RecvMessageSample/RecvMessageHelper.cs:50-58 | with a worker, everything queued is raised before the queue is cleared; without one it is discarded |
| RecvQueue.RecvMessageHelper.HandleMessage | RecvMessageSample/RecvMessageHelper.cs:60-63 | enqueues the message and releases one permit |
| RecvQueue.RecvMessageHelper.AddMessage | RecvMessageSample/RecvMessageHelper.cs:67-74 | enqueues at the tail and releases one permit |
| RecvQueue.RecvMessageHelper.HasMessage | RecvMessageSample/RecvMessageHelper.cs:76-85 | true exactly when the queue is not empty |
| RecvQueue.RecvMessageHelper.WaitOne | RecvMessageSample/RecvMessageHelper.cs:119 | takes a permit exactly when there is one |
| RecvQueue.RecvMessageHelper.PickMessage | RecvMessageSample/RecvMessageHelper.cs:87-100 | removes and returns the head; from an empty queue returns null and changes nothing |
| RecvQueue.RecvMessageHelper.ClearMessage | RecvMessageSample/RecvMessageHelper.cs:102-108 | empties the queue and leaves the permits |
| RecvQueue.RecvMessageHelper.DoWork | RecvMessageSample/RecvMessageHelper.cs:115-128 | the worker raises exactly `Drained` of the queue and permits it started with |
| RecvQueue.RecvStopDeliversEverything | RecvMessageSample/RecvMessageHelper.cs:50-58 | messages handed over after `Start` are all raised by `Stop`, in order, each once |
| RecvQueue.RecvWorkerDeliversInOrder | RecvMessageSample/RecvMessageHelper.cs:115-128 | a worker started over a full queue raises it in order and uses every permit |
| ClientManager.WillMessage | MqttClientHelper/MqttClientManager.cs:125-131 | the will message is `{LostPayLoadCmd: LostPayLoadTopic}` on the publish topic, exactly once, not retained |
| ClientManager.Notify | MqttClientHelper/MqttClientManager.cs:179 | a callback that is set is invoked once; one that is not set is skipped |
| ClientManager.StartStep | MqttClientHelper/MqttClientManager.cs:86-90 | starts one connect task and changes nothing else |
| ClientManager.StopStep | MqttClientHelper/MqttClientManager.cs:92-108 | drops the timer and the client, asks a present client to disconnect, and is then not connected |
| ClientManager.ConnectStep | MqttClientHelper/MqttClientManager.cs:110-151 | a null client stops there; otherwise one connect with the broker settings, the client id, the will message and a clean session; a throwing connect leaves the manager not connected and reports nothing; a successful one leaves a connected client and the logical flag as it was |
| ClientManager.HeartbeatStep | MqttClientHelper/MqttClientManager.cs:245-262 | when enabled and a client is there, one heartbeat is published; otherwise nothing changes |
| ClientManager.PublishStep | MqttClientHelper/MqttClientManager.cs:153-165 | a non-null message with a client is published exactly once on the publish topic; otherwise nothing changes |
| ClientManager.MessageReceivedStep | MqttClientHelper/MqttClientManager.cs:170-180 | only a message on the subscribe topic reaches the message callback |
| ClientManager.ConnectedStep | MqttClientHelper/MqttClientManager.cs:183-209 | sets the flag; a present client is asked to subscribe once and, when heartbeats are enabled, to publish one heartbeat; arms a new daemon timer and reports `true` |
| ClientManager.DisconnectedStep | MqttClientHelper/MqttClientManager.cs:212-216 | clears the flag and reports `false`; nothing else changes |
| ClientManager.DaemonStep | MqttClientHelper/MqttClientManager.cs:222-243 | a tick of the armed timer: not connected, drop the timer and start exactly one connect task; connected, one heartbeat when enabled and the timer re-armed |
| ClientManager.DisposeStep | MqttClientHelper/MqttClientManager.cs:271-288 | the first call drops the callbacks and stops; later calls change nothing |
| ClientManager.MqttClientManager.constructor | MqttClientHelper/MqttClientManager.cs:51-65 | no client, no timer, not connected, the default settings |
| ClientManager.MqttClientManager.SetMessageAction | MqttClientHelper/MqttClientManager.cs:72-75 | sets or clears the message callback only |
| ClientManager.MqttClientManager.SetConnectAction | MqttClientHelper/MqttClientManager.cs:81-84 | sets or clears the connection callback only |
| ClientManager.MqttClientManager.Start | MqttClientHelper/MqttClientManager.cs:86-90 | ends in the state `StartStep` gives |
| ClientManager.MqttClientManager.Stop | MqttClientHelper/MqttClientManager.cs:92-108 | ends in the state `StopStep` gives |
| ClientManager.MqttClientManager.ConnectAsync | MqttClientHelper/MqttClientManager.cs:110-151 | ends in the state `ConnectStep` gives |
| ClientManager.MqttClientManager.Publish | MqttClientHelper/MqttClientManager.cs:153-165 | ends in the state `PublishStep` gives |
| ClientManager.MqttClientManager.OnMessageReceived | MqttClientHelper/MqttClientManager.cs:170-180 | ends in the state `MessageReceivedStep` gives |
| ClientManager.MqttClientManager.OnMqttConnected | MqttClientHelper/MqttClientManager.cs:183-209 | ends in the state `ConnectedStep` gives |
| ClientManager.MqttClientManager.OnMqttDisconnected | MqttClientHelper/MqttClientManager.cs:212-216 | ends in the state `DisconnectedStep` gives |
| ClientManager.MqttClientManager.DaemonFunc | MqttClientHelper/MqttClientManager.cs:222-243 | runs only while the timer is there and ends in the state `DaemonStep` gives |
| ClientManager.DaemonStepRetrying | MqttClientHelper/MqttClientManager.cs:222-243 | the daemon tick with its timer kept while reconnecting: not connected, one connect task and the timer re-armed; connected, the same as `DaemonStep` |
| ClientManager.MqttClientManager.DaemonFuncRetrying | MqttClientHelper/MqttClientManager.cs:222-243 | ends in the state `DaemonStepRetrying` gives |
| ClientManager.MqttClientManager.PublishHeartbeat | MqttClientHelper/MqttClientManager.cs:245-262 | ends in the state `HeartbeatStep` gives |
| ClientManager.MqttClientManager.DisposeCore | MqttClientHelper/MqttClientManager.cs:271-288 | ends in the state `DisposeStep` gives |
| ClientManager.MqttClientManager.Dispose | MqttClientHelper/MqttClientManager.cs:296-300 | ends in the state `DisposeStep` gives when disposing |
| ClientManager.StopIdempotent | MqttClientHelper/MqttClientManager.cs:92-108 | stopping twice is stopping once |
| ClientManager.DisposeIdempotent | MqttClientHelper/MqttClientManager.cs:271-288 | disposing twice is disposing once |
| ClientManager.DaemonAfterDisconnect | MqttClientHelper/MqttClientManager.cs:212-243 | after a disconnect, the daemon starts exactly one reconnect, publishes nothing and drops its timer |
| ClientManager.ReconnectFailureStalls | MqttClientHelper/MqttClientManager.cs:146-150 | as written, a reconnect the daemon starts that fails leaves the manager disconnected, unreported and with no daemon timer, so nothing tries again |
| ClientManager.RetryingKeepsPolling | MqttClientHelper/MqttClientManager.cs:222-243 | with the retrying daemon, after any number of failed reconnects the timer is still armed, no task is left over, nothing is reported, and the requests sent are exactly one connect per round with a client, each with the manager's broker settings, client id and will |
| ClientManager.DaemonKeepsConnection | MqttClientHelper/MqttClientManager.cs:222-243 | while connected, any number of daemon ticks keep the connection and an armed timer, start no task, and add exactly one heartbeat per tick when heartbeats are enabled |
| SendCounter.SendMessageHelper.constructor | SendMessageSample/SendMessageHelper.cs:10-17 | no timer, nothing sent |
| SendCounter.SendMessageHelper.Start | SendMessageSample/SendMessageHelper.cs:19-33 | a negative value changes nothing; otherwise count from 0 towards the value and arm the timer |
| SendCounter.SendMessageHelper.Stop | SendMessageSample/SendMessageHelper.cs:35-40 | drops the timer and changes nothing else |
| SendCounter.SendMessageHelper.SendFunc | SendMessageSample/SendMessageHelper.cs:42-63 | sends the envelope of the current value, counts up without overflow, and stops once the count reaches the stop value |
| SendCounter.EnvelopesAt | SendMessageSample/SendMessageHelper.cs:65-82 | entry `i` of the sent sequence is the envelope of the value `i` |
| SendCounter.SendAll | SendMessageSample/SendMessageHelper.cs:19-63 | a run sends nothing for a negative value, otherwise the envelopes of 0, 1, … in order, `sendValue` of them, and one for 0 |
| RecvCounter.TickAsWritten | RecvMessageSample/SendMessageHelper.cs:46 | as written, the counter steps to the next value below `int.MaxValue` and wraps to `int.MinValue` at it, and the timer goes on exactly when the value was below the stop value or was `int.MaxValue` |
| RecvCounter.SendMessageHelper.constructor | RecvMessageSample/SendMessageHelper.cs:8-15 | no timer, nothing sent |
| RecvCounter.SendMessageHelper.Start | RecvMessageSample/SendMessageHelper.cs:17-31 | an empty range changes nothing; otherwise count from the start value and arm the timer |
| RecvCounter.SendMessageHelper.Stop | RecvMessageSample/SendMessageHelper.cs:33-38 | drops the timer and changes nothing else |
| RecvCounter.SendMessageHelper.SendFunc | RecvMessageSample/SendMessageHelper.cs:40-56 | sends the current value's text and ticks as written |
| RecvCounter.SendMessageHelper.SendFuncChecked | RecvMessageSample/SendMessageHelper.cs:40-56 | sends the current value's text and ticks with the check before the increment |
| RecvCounter.Range | RecvMessageSample/SendMessageHelper.cs:17-56 | the texts of `lo` to `hi`, one per value, in ascending order |
| RecvCounter.SendRange | RecvMessageSample/SendMessageHelper.cs:17-56 | with the checked tick, a run sends exactly the values from start to stop |
| RecvCounter.SendRangeAsWritten | RecvMessageSample/SendMessageHelper.cs:17-56 | as written, a run with a stop value below `int.MaxValue` sends exactly the values from start to stop |
| RecvCounter.TicksAgreeBelowMax | RecvMessageSample/SendMessageHelper.cs:46 | below `int.MaxValue` the tick as written and the checked tick agree |
| RecvCounter.TickWrapsAtMax | RecvMessageSample/SendMessageHelper.cs:46 | at the stop value `int.MaxValue`, the tick as written wraps to `int.MinValue` and goes on |
| RecvCounter.WrapAtMaxValue | RecvMessageSample/SendMessageHelper.cs:40-56 | a counter at the stop value `int.MaxValue` sends it and keeps running from `int.MinValue` |
| SendForm.TruncDiv | SendMessageSample/SendForm.cs:335 | C#'s integer division gives the multiple of the divisor nearest the dividend on the side of zero |
| SendForm.MillisecondsPart | SendMessageSample/SendForm.cs:333-335 | `TimeSpan.Milliseconds` is between -999 and 999, and is the whole span below one second |
| SendForm.Insert | SendMessageSample/SendForm.cs:331 | inserting into a sorted list keeps it sorted and adds exactly the one value |
| SendForm.SortSpans | SendMessageSample/SendForm.cs:331 | sorting by span gives the same spans in ascending order |
| SendForm.Report | SendMessageSample/SendForm.cs:328-342 | the corrected report: the least and greatest spans, and the average as the integer sum of the spans divided by their count (C# truncating division), which lies between them |
| SendForm.SortedExtremes | SendMessageSample/SendForm.cs:331-334 | after sorting, the first and last spans are the least and greatest |
| SendForm.SumBounds | SendMessageSample/SendForm.cs:335 | the sum of `n` spans lies between `n` times the least and `n` times the greatest |
| SendForm.TruncDivBounds | SendMessageSample/SendForm.cs:335 | the truncated average of values between two bounds lies between them |
| SendForm.ReportAsWrittenMinAboveMax | SendMessageSample/SendForm.cs:333-335 | as written, spans of 999 ms and 1000 ms are shown as a minimum of 999 above a maximum of 0 |
| SendForm.ReportsAgreeBelowOneSecond | SendMessageSample/SendForm.cs:333-335 | when every span is below one second, the report as written equals the corrected report |
| SendForm.Find | SendMessageSample/SendForm.cs:178-182 | the dictionary lookup finds the entry with the key, or reports that no entry has it |
| SendForm.CountReceived | SendMessageSample/SendForm.cs:187 | the count of received entries is at most the number of entries |
| SendForm.AllReceivedIff | SendMessageSample/SendForm.cs:187-190 | the count equals the number of entries exactly when every entry is received |
| SendForm.SpansOf | SendMessageSample/PingInfo.cs:5-12 | one span per entry |
| SendForm.SendForm.constructor | SendMessageSample/SendForm.cs:22-32 | the field defaults: 127.0.0.1:61613, admin/password, 20 fps, 0 to 30000, no pings |
| SendForm.SendForm.ButtonPingClick | SendMessageSample/SendForm.cs:308-324 | the tracker becomes ten unanswered pings sent now, under distinct keys, and one ping is published per key |
| SendForm.SendForm.OnPangMsgSafePost | SendMessageSample/SendForm.cs:169-192 | an empty or unknown key only logs; a known key marks its entry received, and the result is shown whenever every entry is received |
| SendForm.SendForm.DisplayPingInfo | SendMessageSample/SendForm.cs:328-342 | shows the report as written over the spans of every entry |
| SendForm.SendForm.CheckMqttParas | SendMessageSample/SendForm.cs:218-249 | returns and stores what `ReadMqttParas` gives for the stored settings |
| SendForm.SendForm.CheckSendParas | SendMessageSample/SendForm.cs:262-306 | returns and stores what `ReadSendParas` gives for the stored settings |
| SendForm.MqttParasAccepted | SendMessageSample/SendForm.cs:218-249 | the settings are accepted exactly when the address, user and password are not blank and the port is an `int`; then all four are stored |
| SendForm.SendParasAccepted | SendMessageSample/SendForm.cs:262-306 | the settings are accepted exactly when the frame rate is a positive `int` and the start and stop values are `int`s that are not negative; then all four are stored |

## Left out

- The Windows Forms user interface is not modelled: labels, message boxes, the log list box
  context menu, `SynchronizationContext.Post`, and the login and send buttons.
  `buttonSend_Click` (SendForm.cs:251-260) calls a three-argument `Start` that the sending
  sample's `SendMessageHelper` does not define; that call is not modelled.
- The MQTT library is not modelled. The client is present or absent, connected or not.
  What the manager asks of it is recorded as requests, and whether the factory and the
  connect call succeed is a parameter of `ConnectStep`. TLS options, keep-alive, timeouts and
  the Task scheduler are left out.
- Newtonsoft.Json is replaced by a compact printer and parser with a proved round trip. It
  reads only the form it prints: whitespace, duplicate keys, nested objects, other value
  kinds and Newtonsoft's own escape rules are not modelled. Parse errors are `None`.
- Threads, locks and the semaphore's timing are left out. Each public method is one atomic
  step. `DoWork` stops where the source would wait for a permit, and a later call resumes it.
  The semaphore's maximum count of `int.MaxValue` is not modelled.
- `DateTime.Now`, `Guid.NewGuid()` and `Environment.MachineName` are parameters. Timer
  periods are kept as numbers; the timers never fire by themselves. A daemon tick is
  modelled only for the timer that `_daemonTimer` holds. Two other kinds of tick are left out
  as concurrency. One is a callback already queued on the thread pool when `DaemonFunc` or
  `Stop` disposes the timer (MqttClientHelper/MqttClientManager.cs:95-96, :227-228). The other
  comes from an earlier timer that `OnMqttConnected` overwrites without disposing
  (MqttClientHelper/MqttClientManager.cs:205), for example after a second `Start`. When the
  manager is not connected, either kind of tick would start one more connect task
  (MqttClientHelper/MqttClientManager.cs:231), even after `Stop`.
- `LogHelper`, the `MqttClientHelper` singletons, the finalizer of `MqttClientManager` and
  the string encodings are left out.
- `Para.RemoteServerName`, which the sending handler uses as the peer-name key, is not
  defined in `MqttClientModules/MqttClientConstants.cs`, so its value is left open.
- `_pingDic` is modelled as the list of its entries in insertion order. A `Dictionary` that
  is cleared and then only added to enumerates in that order.
- SendForm.SendForm.DisplayPingInfo: requires a non-empty tracker. The source divides by the
  entry count, and it is only called once every entry of the ten-ping tracker is received.
- `Stop` clears the queue (MqttClientUtil/MessageHelper.cs:50-58): with a running worker the queued
  messages are raised first; without one they are dropped. A `Stop` followed by `Start` can
  therefore lose queued messages.
- The will payload `{MqttClientCmd: TopicLostPayLoad}` carries no `Paras`, so either role
  raises the lost-payload handler's parse error (`RoundTrips.RecvWillIsParseError`) and no
  peer name is logged.

## Findings

| source | as written | input that shows it | evidently intended | confidence | as-written member | corrected member |
|---|---|---|---|---|---|---|
| RecvMessageSample/SendMessageHelper.cs:46 | `++_current > _stop` increments a 32-bit `int` before comparing it with the stop value | `Start(interval, int.MaxValue, int.MaxValue)`, then one tick: the counter wraps to `int.MinValue`, which is not above the stop value, so the timer keeps running | send the values from start to stop once and stop | not executed | RecvCounter.WrapAtMaxValue | RecvCounter.SendRange |
| SendMessageSample/SendForm.cs:333-335 | the minimum, maximum and average use `TimeSpan.Milliseconds`, the millisecond component of the span | spans of 999 ms and 1000 ms: sorted in that order, they show a minimum of 999 and a maximum of 0 | the least, greatest and average span in whole milliseconds | not executed | SendForm.ReportAsWrittenMinAboveMax | SendForm.Report |
| MqttClientHelper/MqttClientManager.cs:227-231 | `DaemonFunc`, finding the manager disconnected, disposes the daemon timer and sets it to null before starting one reconnect; only `OnMqttConnected` creates a new timer | a disconnect, then a daemon tick whose reconnect throws (or whose factory returns null): the manager is left disconnected with no timer, and nothing ever tries to connect again until `Start` is called | keep polling: try again at every daemon tick until a connect succeeds | not executed | ClientManager.ReconnectFailureStalls | ClientManager.RetryingKeepsPolling |
