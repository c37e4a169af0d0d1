/**
 * `SendMqttMsgHandler`: the sending role's handler. It repeats the base handler's logic but
 * binds only five topics (no `Ping`) and no command, and its peer notices read the peer's
 * name under `Para.RemoteServerName`.
 */
module SendHandler {
  import opened Wrappers
  import opened Text
  import opened Json
  import opened Constants
  import opened Envelope
  import opened MessageHandler

  /**
   * The parameter name `Para.RemoteServerName`. The constants file of the repository does
   * not define it, so its value is left open here.
   */
  const RemoteServerName: string

  /** The sending role binds no command, so no value of this type is ever in its table. */
  datatype SendCommand = Unbound

  function InvokeCommand(c: SendCommand, paras: Option<string>): seq<Event> {
    []
  }

  /** The topic table the constructor builds: the base topics without `Ping`. */
  function SendTopicTable(): map<string, TopicAction> {
    map[TopicOnLine := OnLineAction, TopicOffLine := OffLineAction, TopicPang := PangAction,
        TopicLostPayLoad := LostPayLoadAction, TopicOperation := OperationAction]
  }

  /** The events the sending role raises for one inbound message. */
  function SendHandleMessage(msg: Option<string>): seq<Event> {
    HandleMessage(SendTopicTable(), map[], InvokeCommand, RemoteServerName, msg)
  }

  class SendMqttMsgHandler {
    var topicActionDic: map<string, TopicAction>
    var cmdActionDic: map<string, SendCommand>
    /** The events raised so far, oldest first. */
    var events: seq<Event>

    /** The constructor creates both tables and runs `InitActionDic`. */
    constructor()
      ensures topicActionDic == SendTopicTable() && cmdActionDic == map[] && events == []
    {
      topicActionDic := map[];
      cmdActionDic := map[];
      events := [];
      new;
      InitActionDic();
    }

    /** `Dictionary.Add` on the topic table: the name must not be bound yet. */
    method AddTopic(topic: string, action: TopicAction)
      requires topic !in topicActionDic
      modifies this
      ensures topicActionDic == old(topicActionDic)[topic := action]
      ensures cmdActionDic == old(cmdActionDic) && events == old(events)
    {
      topicActionDic := topicActionDic[topic := action];
    }

    /** `InitActionDic`: clear both tables and add the five topics; no command is added. */
    method InitActionDic()
      modifies this
      ensures topicActionDic == SendTopicTable() && cmdActionDic == map[]
      ensures events == old(events)
    {
      topicActionDic := map[];
      cmdActionDic := map[];
      AddTopic(TopicOnLine, OnLineAction);
      AddTopic(TopicOffLine, OffLineAction);
      AddTopic(TopicPang, PangAction);
      AddTopic(TopicLostPayLoad, LostPayLoadAction);
      AddTopic(TopicOperation, OperationAction);
    }

    /** `HandleMessage`: raise the events the tables route the message to. */
    method HandleMessage(msg: Option<string>)
      modifies this
      ensures topicActionDic == old(topicActionDic) && cmdActionDic == old(cmdActionDic)
      ensures events == old(events) + MessageHandler.HandleMessage(topicActionDic, cmdActionDic, InvokeCommand, RemoteServerName, msg)
    {
      events := events + MessageHandler.HandleMessage(topicActionDic, cmdActionDic, InvokeCommand, RemoteServerName, msg);
    }

    /** `PublishPing`: raise `OnPublishMsg` with a ping envelope carrying `key`. */
    method PublishPing(key: Option<string>)
      modifies this
      ensures topicActionDic == old(topicActionDic) && cmdActionDic == old(cmdActionDic)
      ensures events == old(events) + [PublishMsg(PingMessage(key))]
    {
      events := events + [PublishMsg(PingMessage(key))];
    }

    /** `PublishPang`: raise `OnPublishMsg` with a pong envelope carrying `key`. */
    method PublishPang(key: Option<string>)
      modifies this
      ensures topicActionDic == old(topicActionDic) && cmdActionDic == old(cmdActionDic)
      ensures events == old(events) + [PublishMsg(PangMessage(key))]
    {
      events := events + [PublishMsg(PangMessage(key))];
    }

    /** `PublishTopic`: raise `OnPublishMsg` with an envelope naming only the topic. */
    method PublishTopic(topic: Option<string>)
      modifies this
      ensures topicActionDic == old(topicActionDic) && cmdActionDic == old(cmdActionDic)
      ensures events == old(events) + [PublishMsg(BareTopicMessage(topic))]
    {
      events := events + [PublishMsg(BareTopicMessage(topic))];
    }
  }

  // ---------------------------------------------------------------- properties

  /** The sending table binds `Ping` to nothing and every other base topic as the base table does. */
  lemma SendTopicsAreBaseWithoutPing()
    ensures SendTopicTable().Keys == BaseTopicTable().Keys - {TopicPing}
    ensures forall t :: t in SendTopicTable() ==> SendTopicTable()[t] == BaseTopicTable()[t]
  {
  }

  /** A ping reaching the sending role is an unrecognised topic: one error, and no pong is published. */
  lemma PingIsUnrecognised(key: Option<string>)
    ensures SendHandleMessage(Some(PingMessage(key))) == [ErrorMsg(UnknownTopicPrefix + TopicPing)]
  {
    HandleTopicMessage(SendTopicTable(), map[], InvokeCommand, RemoteServerName, TopicPing, KeyParas(key));
  }

  /** With the empty command table, every operation message raises exactly one error and nothing else. */
  lemma OperationAlwaysFails(msg: Option<string>)
    ensures var r := HandleTopicOperation<SendCommand>(map[], InvokeCommand, msg); |r| == 1 && r[0].ErrorMsg?
  {
  }

  /** In particular an operation naming a command gets the error naming that command. */
  lemma OperationNamesCommand(o: JObject, cmd: string)
    requires GetString(o, Command) == Some(cmd) && cmd != []
    ensures HandleTopicOperation<SendCommand>(map[], InvokeCommand, Some(Print(o))) == [ErrorMsg(UnknownCommandPrefix + cmd)]
  {
    RouteOfPrinted<SendCommand>(map[], Command, EmptyOperationError, UnknownCommandPrefix, o, cmd);
  }

  /** A pong reaching the sending role raises `OnPangMsg` with its key, and publishes nothing. */
  lemma PangRaisesKey(key: Option<string>)
    ensures SendHandleMessage(Some(PangMessage(key))) == [PangMsg(key)]
  {
    HandleTopicMessage(SendTopicTable(), map[], InvokeCommand, RemoteServerName, TopicPang, KeyParas(key));
    assert SendTopicTable()[TopicPang] == PangAction;
    assert SendHandleMessage(Some(PangMessage(key))) == HandleTopicPang(Some(KeyParas(key)));
    KeyParasRoundTrip(key);
  }
}
