/**
 * `RecvMqttMsgHandler`: the receiving role's handler. It keeps the base class's six topics
 * and binds the one command `SendValue` to `OnSendValueCmd`, which decodes an integer value.
 */
module RecvHandler {
  import opened Wrappers
  import opened Text
  import opened Json
  import opened Constants
  import opened Envelope
  import opened MessageHandler

  /** The command handlers of the receiving role. */
  datatype RecvCommand = SendValueAction

  /**
   * `OnSendValueCmd`: raise `OnRecvValueMsg` with the `Value` property, or with 0 when it is
   * absent; report an error when the parameters do not parse or the value is not an `int`.
   */
  function OnSendValueCmd(paras: Option<string>): (r: seq<Event>)
    ensures |r| == 1
    ensures ParseNullable(paras).None? ==> r == [ErrorMsg("OnSendValueCmd - JSON解析失败: " + OrEmpty(paras))]
    ensures ParseNullable(paras).Some? && Lookup(ParseNullable(paras).value, ParaValue).None? ==> r == [RecvValueMsg(0)]
    ensures forall v: Int32 ::
              ParseNullable(paras).Some? && Lookup(ParseNullable(paras).value, ParaValue) == Some(JInt(v))
              ==> r == [RecvValueMsg(v)]
  {
    match ParseNullable(paras)
    case None => [ErrorMsg("OnSendValueCmd - JSON解析失败: " + OrEmpty(paras))]
    case Some(o) =>
      match Lookup(o, ParaValue)
      case None => [RecvValueMsg(0)]
      case Some(t) =>
        match AsInt32(t)
        case None => [ErrorMsg("OnSendValueCmd - JSON解析失败: " + OrEmpty(paras))]
        case Some(v) => [RecvValueMsg(v)]
  }

  function InvokeCommand(c: RecvCommand, paras: Option<string>): seq<Event> {
    match c
    case SendValueAction => OnSendValueCmd(paras)
  }

  /** The command table the override of `InitActionDic` builds. */
  function RecvCommandTable(): map<string, RecvCommand> {
    map[CmdSendValue := SendValueAction]
  }

  /** The events the receiving role raises for one inbound message. */
  function RecvHandleMessage(msg: Option<string>): seq<Event> {
    HandleMessage(BaseTopicTable(), RecvCommandTable(), InvokeCommand, ParaMachineName, msg)
  }

  class RecvMqttMsgHandler {
    var topicActionDic: map<string, TopicAction>
    var cmdActionDic: map<string, RecvCommand>
    /** The events raised so far, oldest first. */
    var events: seq<Event>

    constructor()
      ensures topicActionDic == map[] && cmdActionDic == map[] && events == []
    {
      topicActionDic := map[];
      cmdActionDic := map[];
      events := [];
    }

    /** `Dictionary.Add` on the topic table: the name must not be bound yet. */
    method AddTopic(topic: string, action: TopicAction)
      requires topic !in topicActionDic
      modifies this
      ensures topicActionDic == old(topicActionDic)[topic := action]
      ensures cmdActionDic == old(cmdActionDic) && events == old(events)
    {
      topicActionDic := topicActionDic[topic := action];
    }

    /** `Dictionary.Add` on the command table: the name must not be bound yet. */
    method AddCommand(cmd: string, action: RecvCommand)
      requires cmd !in cmdActionDic
      modifies this
      ensures cmdActionDic == old(cmdActionDic)[cmd := action]
      ensures topicActionDic == old(topicActionDic) && events == old(events)
    {
      cmdActionDic := cmdActionDic[cmd := action];
    }

    /** The base class's `InitActionDic`: clear both tables and add the six topics. */
    method BaseInitActionDic()
      modifies this
      ensures topicActionDic == BaseTopicTable() && cmdActionDic == map[]
      ensures events == old(events)
    {
      topicActionDic := map[];
      cmdActionDic := map[];
      AddTopic(TopicOnLine, OnLineAction);
      AddTopic(TopicOffLine, OffLineAction);
      AddTopic(TopicPing, PingAction);
      AddTopic(TopicPang, PangAction);
      AddTopic(TopicLostPayLoad, LostPayLoadAction);
      AddTopic(TopicOperation, OperationAction);
    }

    /** The override of `InitActionDic`: the base tables plus the command `SendValue`. */
    method InitActionDic()
      modifies this
      ensures topicActionDic == BaseTopicTable() && cmdActionDic == RecvCommandTable()
      ensures events == old(events)
    {
      BaseInitActionDic();
      AddCommand(CmdSendValue, SendValueAction);
    }

    /** `Init`: build the tables; running it again gives the same tables, since both are cleared first. */
    method Init()
      modifies this
      ensures topicActionDic == BaseTopicTable() && cmdActionDic == RecvCommandTable()
      ensures events == old(events)
    {
      InitActionDic();
    }

    /** `HandleMessage`: raise the events the tables route the message to. */
    method HandleMessage(msg: Option<string>)
      modifies this
      ensures topicActionDic == old(topicActionDic) && cmdActionDic == old(cmdActionDic)
      ensures events == old(events) + MessageHandler.HandleMessage(topicActionDic, cmdActionDic, InvokeCommand, ParaMachineName, msg)
    {
      events := events + MessageHandler.HandleMessage(topicActionDic, cmdActionDic, InvokeCommand, ParaMachineName, msg);
    }

    /** `PublishPing`: raise `OnPublishMsg` with a ping envelope carrying `key`. */
    method PublishPing(key: Option<string>)
      modifies this
      ensures topicActionDic == old(topicActionDic) && cmdActionDic == old(cmdActionDic)
      ensures events == old(events) + [PublishMsg(PingMessage(key))]
    {
      events := events + [PublishMsg(PingMessage(key))];
    }

    /** `PublishPang`: raise `OnPublishMsg` with a pong envelope carrying `key`. */
    method PublishPang(key: Option<string>)
      modifies this
      ensures topicActionDic == old(topicActionDic) && cmdActionDic == old(cmdActionDic)
      ensures events == old(events) + [PublishMsg(PangMessage(key))]
    {
      events := events + [PublishMsg(PangMessage(key))];
    }

    /** `PublishOnLine`, with `Environment.MachineName` as a parameter. */
    method PublishOnLine(machineName: string)
      modifies this
      ensures topicActionDic == old(topicActionDic) && cmdActionDic == old(cmdActionDic)
      ensures events == old(events) + [PublishMsg(OnLineMessage(machineName))]
    {
      events := events + [PublishMsg(OnLineMessage(machineName))];
    }

    /** `PublishOffLine`, with `Environment.MachineName` as a parameter. */
    method PublishOffLine(machineName: string)
      modifies this
      ensures topicActionDic == old(topicActionDic) && cmdActionDic == old(cmdActionDic)
      ensures events == old(events) + [PublishMsg(OffLineMessage(machineName))]
    {
      events := events + [PublishMsg(OffLineMessage(machineName))];
    }

    /** `PublishTopic`: raise `OnPublishMsg` with an envelope naming only the topic. */
    method PublishTopic(topic: Option<string>)
      modifies this
      ensures topicActionDic == old(topicActionDic) && cmdActionDic == old(cmdActionDic)
      ensures events == old(events) + [PublishMsg(BareTopicMessage(topic))]
    {
      events := events + [PublishMsg(BareTopicMessage(topic))];
    }
  }

  // ---------------------------------------------------------------- properties

  /** Under `Operation`, a command other than `SendValue` is rejected with an error naming it. */
  lemma OnlySendValueIsACommand(o: JObject, cmd: string)
    requires GetString(o, Command) == Some(cmd) && cmd != [] && cmd != CmdSendValue
    ensures HandleTopicOperation(RecvCommandTable(), InvokeCommand, Some(Print(o)))
            == [ErrorMsg(UnknownCommandPrefix + cmd)]
  {
    RouteOfPrinted(RecvCommandTable(), Command, EmptyOperationError, UnknownCommandPrefix, o, cmd);
  }
}
