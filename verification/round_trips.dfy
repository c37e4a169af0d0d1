/**
 * What the two sample roles do with each other's messages: the envelopes one role
 * publishes, handed to the other role's handler unchanged by the broker.
 *
 * The sending role publishes an operation envelope per counter value and pings; the
 * receiving role decodes the value and answers each ping with a pong carrying the same key.
 * The will payload the client manager registers names the lost-payload topic but carries no
 * `Paras`, so whichever role it reaches reports a parse error instead of a peer name.
 */
module RoundTrips {
  import opened Wrappers
  import opened Text
  import opened Json
  import opened Constants
  import opened Envelope
  import opened MessageHandler
  import RecvHandler
  import SendHandler
  import SendCounter

  /** The receiver routes the command object `SendValue` to `OnSendValueCmd` with its `Paras` text. */
  lemma SendValueCommandRouted(value: Int32)
    ensures HandleTopicOperation(RecvHandler.RecvCommandTable(), RecvHandler.InvokeCommand,
                                 Some(SendCounter.SendValueCommand(value)))
            == RecvHandler.OnSendValueCmd(Some(SendCounter.ValueParas(value)))
  {
    var c := [(Command, JStr(CmdSendValue)), (Paras, JStr(SendCounter.ValueParas(value)))];
    EnvelopeKeysDistinct();
    assert c[1..] == [(Paras, JStr(SendCounter.ValueParas(value)))];
    assert Lookup(c, Paras) == Lookup(c[1..], Paras);
    RouteOfPrinted(RecvHandler.RecvCommandTable(), Command, EmptyOperationError, UnknownCommandPrefix, c, CmdSendValue);
  }

  /** `OnSendValueCmd` decodes the parameter object `{Value: value}` back to `value`. */
  lemma ValueParasDecoded(value: Int32)
    ensures RecvHandler.OnSendValueCmd(Some(SendCounter.ValueParas(value))) == [RecvValueMsg(value)]
  {
    var o := [(ParaValue, JInt(value))];
    ParsePrint(o);
    assert Lookup(o, ParaValue) == Some(JInt(value));
  }

  /** The receiving role hands the parameter text of an operation envelope to its command level. */
  lemma OperationRouted(paras: string)
    ensures RecvHandler.RecvHandleMessage(Some(TopicMessage(TopicOperation, paras)))
            == HandleTopicOperation(RecvHandler.RecvCommandTable(), RecvHandler.InvokeCommand, Some(paras))
  {
    HandleTopicMessage(BaseTopicTable(), RecvHandler.RecvCommandTable(), RecvHandler.InvokeCommand, ParaMachineName,
                       TopicOperation, paras);
    assert BaseTopicTable()[TopicOperation] == OperationAction;
  }

  /**
   * Every value the sending role's counter publishes reaches the receiving role as exactly
   * one `OnRecvValueMsg` with that same value, and raises nothing else.
   */
  lemma SentValueReceived(value: Int32)
    ensures RecvHandler.RecvHandleMessage(Some(SendCounter.GetSendMessage(value))) == [RecvValueMsg(value)]
  {
    OperationRouted(SendCounter.SendValueCommand(value));
    SendValueCommandRouted(value);
    ValueParasDecoded(value);
  }

  /** The receiving role logs a ping and publishes a pong carrying the ping's key, null included. */
  lemma PingAnswered(key: Option<string>)
    ensures RecvHandler.RecvHandleMessage(Some(PingMessage(key)))
            == [LogMsg("Received ping cmd: " + OrEmpty(key) + "."), PublishMsg(PangMessage(key))]
  {
    HandleTopicMessage(BaseTopicTable(), RecvHandler.RecvCommandTable(), RecvHandler.InvokeCommand, ParaMachineName,
                       TopicPing, KeyParas(key));
    KeyParasRoundTrip(key);
  }

  /**
   * A ping the sending role publishes comes back to it: the receiver's pong, handed to the
   * sender, raises `OnPangMsg` with the key the ping carried.
   */
  lemma PingComesBack(key: Option<string>)
    ensures var r := RecvHandler.RecvHandleMessage(Some(PingMessage(key)));
            |r| == 2 && r[1].PublishMsg? && SendHandler.SendHandleMessage(Some(r[1].text)) == [PangMsg(key)]
  {
    PingAnswered(key);
    SendHandler.PangRaisesKey(key);
  }

  /** A peer notice on `{MachineName: name}` logs whatever is stored under `nameKey`, then the verb. */
  lemma MachineNotice(name: string, nameKey: string, verb: string, handlerName: string)
    ensures PeerNotice(Some(MachineParas(name)), nameKey, verb, handlerName)
            == [LogMsg(OrEmpty(GetString([(ParaMachineName, JStr(name))], nameKey)) + verb)]
  {
    MachineParasRoundTrip(name);
  }

  /** The object `{MachineName: name}` holds `name` under `MachineName` and nothing else. */
  lemma NameUnder(name: string, key: string)
    ensures OrEmpty(GetString([(ParaMachineName, JStr(name))], key)) == if key == ParaMachineName then name else ""
  {
  }

  /** The receiving role logs the machine name an on-line envelope carries. */
  lemma RecvOnLineLogged(name: string)
    ensures RecvHandler.RecvHandleMessage(Some(OnLineMessage(name))) == [LogMsg(name + "上线")]
  {
    HandleTopicMessage(BaseTopicTable(), RecvHandler.RecvCommandTable(), RecvHandler.InvokeCommand, ParaMachineName,
                       TopicOnLine, MachineParas(name));
    assert BaseTopicTable()[TopicOnLine] == OnLineAction;
    MachineNotice(name, ParaMachineName, "上线", "HandleTopicOnLine");
    NameUnder(name, ParaMachineName);
  }

  /** The receiving role logs the machine name an off-line envelope carries. */
  lemma RecvOffLineLogged(name: string)
    ensures RecvHandler.RecvHandleMessage(Some(OffLineMessage(name))) == [LogMsg(name + "下线")]
  {
    HandleTopicMessage(BaseTopicTable(), RecvHandler.RecvCommandTable(), RecvHandler.InvokeCommand, ParaMachineName,
                       TopicOffLine, MachineParas(name));
    assert BaseTopicTable()[TopicOffLine] == OffLineAction;
    MachineNotice(name, ParaMachineName, "下线", "HandleTopicOffLine");
    NameUnder(name, ParaMachineName);
  }

  /**
   * The sending role reads the peer's name under `Para.RemoteServerName`, while both roles
   * publish it under `MachineName`: an on-line envelope logs the name only when the two keys
   * are the same, and otherwise the bare verb.
   */
  lemma SendOnLineLogged(name: string)
    ensures SendHandler.SendHandleMessage(Some(OnLineMessage(name)))
            == [LogMsg((if SendHandler.RemoteServerName == ParaMachineName then name else "") + "上线")]
  {
    HandleTopicMessage(SendHandler.SendTopicTable(), map[], SendHandler.InvokeCommand, SendHandler.RemoteServerName,
                       TopicOnLine, MachineParas(name));
    assert SendHandler.SendTopicTable()[TopicOnLine] == OnLineAction;
    MachineNotice(name, SendHandler.RemoteServerName, "上线", "HandleTopicOnLine");
    NameUnder(name, SendHandler.RemoteServerName);
  }

  /** The same holds for an off-line envelope. */
  lemma SendOffLineLogged(name: string)
    ensures SendHandler.SendHandleMessage(Some(OffLineMessage(name)))
            == [LogMsg((if SendHandler.RemoteServerName == ParaMachineName then name else "") + "下线")]
  {
    HandleTopicMessage(SendHandler.SendTopicTable(), map[], SendHandler.InvokeCommand, SendHandler.RemoteServerName,
                       TopicOffLine, MachineParas(name));
    assert SendHandler.SendTopicTable()[TopicOffLine] == OffLineAction;
    MachineNotice(name, SendHandler.RemoteServerName, "下线", "HandleTopicOffLine");
    NameUnder(name, SendHandler.RemoteServerName);
  }

  /**
   * With the settings the samples install (`LostPayLoadCmd` is the envelope's topic key),
   * the will payload reaches the handler bound to the lost-payload topic with no `Paras` text.
   */
  lemma WillRouted<A>(table: map<string, A>, emptyError: string, unknownPrefix: string, cmd: string, topic: string)
    requires cmd == LostPayLoadCmd && topic != [] && topic in table
    ensures RouteEnvelope(table, CmdType, emptyError, unknownPrefix, Some(WillPayload(cmd, topic)))
            == Routed(table[topic], None)
  {
    WillIsEnvelope();
    EnvelopeKeysDistinct();
    var o := [(cmd, JStr(topic))];
    assert Lookup(o, Paras).None?;
    RouteOfPrinted(table, CmdType, emptyError, unknownPrefix, o, topic);
  }

  /** The receiving role runs its lost-payload handler on the will payload, with a null parameter text. */
  lemma RecvWillReachesLostPayLoad(cmd: string, topic: string)
    requires cmd == LostPayLoadCmd && topic == LostPayLoadTopic
    ensures RecvHandler.RecvHandleMessage(Some(WillPayload(cmd, topic)))
            == InvokeTopic(LostPayLoadAction, RecvHandler.RecvCommandTable(), RecvHandler.InvokeCommand, ParaMachineName, None)
  {
    WillIsEnvelope();
    WillRouted(BaseTopicTable(), EmptyMessageError, UnknownTopicPrefix, cmd, topic);
    assert BaseTopicTable()[topic] == LostPayLoadAction;
  }

  /** So does the sending role. */
  lemma SendWillReachesLostPayLoad(cmd: string, topic: string)
    requires cmd == LostPayLoadCmd && topic == LostPayLoadTopic
    ensures SendHandler.SendHandleMessage(Some(WillPayload(cmd, topic)))
            == InvokeTopic(LostPayLoadAction, map[], SendHandler.InvokeCommand, SendHandler.RemoteServerName, None)
  {
    WillIsEnvelope();
    WillRouted(SendHandler.SendTopicTable(), EmptyMessageError, UnknownTopicPrefix, cmd, topic);
    assert SendHandler.SendTopicTable()[topic] == LostPayLoadAction;
  }

  /** The lost-payload handler, given a null parameter text, raises one parse error. */
  lemma LostPayLoadOnNull<C>(cmds: map<string, C>, invoke: (C, Option<string>) -> seq<Event>, nameKey: string)
    ensures var r := InvokeTopic(LostPayLoadAction, cmds, invoke, nameKey, None); |r| == 1 && r[0].ErrorMsg?
  {
  }

  /**
   * The will payload, delivered to the receiving role, raises the lost-payload handler's
   * parse error and nothing else: with no `Paras` there is nothing to parse, so no peer
   * name is ever logged.
   */
  lemma RecvWillIsParseError(cmd: string, topic: string)
    requires cmd == LostPayLoadCmd && topic == LostPayLoadTopic
    ensures var r := RecvHandler.RecvHandleMessage(Some(WillPayload(cmd, topic)));
            |r| == 1 && r[0].ErrorMsg?
  {
    RecvWillReachesLostPayLoad(cmd, topic);
    LostPayLoadOnNull(RecvHandler.RecvCommandTable(), RecvHandler.InvokeCommand, ParaMachineName);
  }

  /** The same holds for the sending role. */
  lemma SendWillIsParseError(cmd: string, topic: string)
    requires cmd == LostPayLoadCmd && topic == LostPayLoadTopic
    ensures var r := SendHandler.SendHandleMessage(Some(WillPayload(cmd, topic)));
            |r| == 1 && r[0].ErrorMsg?
  {
    SendWillReachesLostPayLoad(cmd, topic);
    LostPayLoadOnNull(map[], SendHandler.InvokeCommand, SendHandler.RemoteServerName);
  }
}
