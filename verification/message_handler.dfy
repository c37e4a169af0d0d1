/**
 * The decoding and routing logic of `MqttMessageHandler`, shared by both handler classes
 * (`RecvMqttMsgHandler` derives from it; `SendMqttMsgHandler` repeats it).
 *
 * A handler object raises C# events; here a call returns the events it raises, in order.
 * The topic table binds a topic name to one of the handler methods; the command table's
 * handlers depend on the concrete class, so they are a type parameter `C` with the
 * function `invoke` that runs one.
 */
module MessageHandler {
  import opened Wrappers
  import opened Text
  import opened Json
  import opened Constants
  import opened Envelope

  /** The events a handler raises: `OnErrorMsg`, `OnLogMsg`, `OnPublishMsg`, `OnPangMsg`, `OnRecvValueMsg`. */
  datatype Event =
    | ErrorMsg(text: string)
    | LogMsg(text: string)
    | PublishMsg(text: string)
    | PangMsg(key: Option<string>)
    | RecvValueMsg(value: Int32)

  /** The topic handler methods a topic table can bind. */
  datatype TopicAction =
    | OnLineAction
    | OffLineAction
    | PingAction
    | PangAction
    | LostPayLoadAction
    | OperationAction

  /** Where one level of the envelope sends a message: an error, or one bound handler with its `Paras` text. */
  datatype Route<A> = Rejected(error: string) | Routed(action: A, paras: Option<string>)

  const ParseErrorPrefix: string := "Json解析失败: "
  const EmptyMessageError: string := "Receive empty msg"
  const EmptyOperationError: string := "HandleTopicOperation empty msg"
  const UnknownTopicPrefix: string := "未识别的主题："
  const UnknownCommandPrefix: string := "未识别的Command："

  /**
   * One level of the envelope, as `HandleMessage` and `HandleTopicOperation` both decode it:
   * reject a null or empty text, reject what does not parse, read the name under `key`, and
   * route to the handler bound to it with the `Paras` text, or reject the name.
   */
  function RouteEnvelope<A>(table: map<string, A>, key: string, emptyError: string, unknownPrefix: string,
                            msg: Option<string>): (r: Route<A>)
    ensures IsNullOrEmpty(msg) ==> r == Rejected(emptyError)
    ensures r.Routed? ==>
      && !IsNullOrEmpty(msg) && Parse(msg.value).Some?
      && var name := GetString(Parse(msg.value).value, key);
      && name.Some? && name.value != [] && name.value in table
      && r.action == table[name.value]
      && r.paras == GetString(Parse(msg.value).value, Paras)
    ensures !IsNullOrEmpty(msg) && Parse(msg.value).None? ==> r == Rejected(ParseErrorPrefix + msg.value)
  {
    if IsNullOrEmpty(msg) then Rejected(emptyError)
    else match Parse(msg.value)
      case None => Rejected(ParseErrorPrefix + msg.value)
      case Some(o) =>
        var name := GetString(o, key);
        if !IsNullOrEmpty(name) && name.value in table then Routed(table[name.value], GetString(o, Paras))
        else Rejected(unknownPrefix + OrEmpty(name))
  }

  /**
   * `HandleTopicOnLine`, `HandleTopicOffLine` and `HandleTopicLostPayLoad`: parse the
   * parameters and log the peer's name followed by `verb`, or report that they do not parse.
   */
  function PeerNotice(paras: Option<string>, nameKey: string, verb: string, handlerName: string): (r: seq<Event>)
    ensures |r| == 1
    ensures r[0].LogMsg? <==> ParseNullable(paras).Some?
    ensures r[0].ErrorMsg? <==> ParseNullable(paras).None?
    ensures ParseNullable(paras).Some? ==>
      r[0].text == OrEmpty(GetString(ParseNullable(paras).value, nameKey)) + verb
    ensures ParseNullable(paras).None? ==> r[0].text == handlerName + " - JSON解析失败: " + OrEmpty(paras)
  {
    match ParseNullable(paras)
    case None => [ErrorMsg(handlerName + " - JSON解析失败: " + OrEmpty(paras))]
    case Some(o) => [LogMsg(OrEmpty(GetString(o, nameKey)) + verb)]
  }

  /** `HandleTopicPing`: log the key and publish a pong carrying the same key. */
  function HandleTopicPing(paras: Option<string>): (r: seq<Event>)
    ensures ParseNullable(paras).None? ==> |r| == 1 && r[0].ErrorMsg?
    ensures ParseNullable(paras).Some? ==>
      var key := GetString(ParseNullable(paras).value, ParaKey);
      |r| == 2 && r[0].LogMsg? && r[1] == PublishMsg(PangMessage(key))
  {
    match ParseNullable(paras)
    case None => [ErrorMsg("HandleTopicPang - JSON解析失败: " + OrEmpty(paras))]
    case Some(o) =>
      var key := GetString(o, ParaKey);
      [LogMsg("Received ping cmd: " + OrEmpty(key) + "."), PublishMsg(PangMessage(key))]
  }

  /** `HandleTopicPang`: raise `OnPangMsg` with the key and publish nothing. */
  function HandleTopicPang(paras: Option<string>): (r: seq<Event>)
    ensures |r| == 1 && !r[0].PublishMsg?
    ensures ParseNullable(paras).Some? ==> r[0] == PangMsg(GetString(ParseNullable(paras).value, ParaKey))
    ensures ParseNullable(paras).None? ==> r[0].ErrorMsg?
  {
    match ParseNullable(paras)
    case None => [ErrorMsg("HandleTopicPang - JSON解析失败: " + OrEmpty(paras))]
    case Some(o) => [PangMsg(GetString(o, ParaKey))]
  }

  /** `HandleTopicOperation`: the second level of the envelope, routed through the command table. */
  function HandleTopicOperation<C>(cmds: map<string, C>, invoke: (C, Option<string>) -> seq<Event>,
                                   msg: Option<string>): (r: seq<Event>)
    ensures RouteEnvelope(cmds, Command, EmptyOperationError, UnknownCommandPrefix, msg).Rejected? ==>
      r == [ErrorMsg(RouteEnvelope(cmds, Command, EmptyOperationError, UnknownCommandPrefix, msg).error)]
  {
    match RouteEnvelope(cmds, Command, EmptyOperationError, UnknownCommandPrefix, msg)
    case Rejected(e) => [ErrorMsg(e)]
    case Routed(c, p) => invoke(c, p)
  }

  /**
   * Runs the topic handler `action` on `paras`. The peer notices read the peer's name under
   * `nameKey`; the error label of the lost-payload handler is the off-line one, as in the source.
   */
  function InvokeTopic<C>(action: TopicAction, cmds: map<string, C>, invoke: (C, Option<string>) -> seq<Event>,
                          nameKey: string, paras: Option<string>): seq<Event> {
    match action
    case OnLineAction => PeerNotice(paras, nameKey, "上线", "HandleTopicOnLine")
    case OffLineAction => PeerNotice(paras, nameKey, "下线", "HandleTopicOffLine")
    case LostPayLoadAction => PeerNotice(paras, nameKey, "断线", "HandleTopicOffLine")
    case PingAction => HandleTopicPing(paras)
    case PangAction => HandleTopicPang(paras)
    case OperationAction => HandleTopicOperation(cmds, invoke, paras)
  }

  /** `HandleMessage`: the events one inbound message raises. */
  function HandleMessage<C>(topics: map<string, TopicAction>, cmds: map<string, C>,
                            invoke: (C, Option<string>) -> seq<Event>, nameKey: string,
                            msg: Option<string>): (r: seq<Event>)
    ensures RouteEnvelope(topics, CmdType, EmptyMessageError, UnknownTopicPrefix, msg).Rejected? ==>
      r == [ErrorMsg(RouteEnvelope(topics, CmdType, EmptyMessageError, UnknownTopicPrefix, msg).error)]
  {
    match RouteEnvelope(topics, CmdType, EmptyMessageError, UnknownTopicPrefix, msg)
    case Rejected(e) => [ErrorMsg(e)]
    case Routed(a, p) => InvokeTopic(a, cmds, invoke, nameKey, p)
  }

  /** The topic table `InitActionDic` of the base class builds. */
  function BaseTopicTable(): map<string, TopicAction> {
    map[TopicOnLine := OnLineAction, TopicOffLine := OffLineAction, TopicPing := PingAction,
        TopicPang := PangAction, TopicLostPayLoad := LostPayLoadAction, TopicOperation := OperationAction]
  }

  // ---------------------------------------------------------------- properties

  /**
   * A printed envelope whose name under `key` is the non-empty `name` reaches exactly the
   * handler bound to `name` with the envelope's `Paras` text, or is rejected with an error
   * naming `name` when nothing is bound to it.
   */
  lemma RouteOfPrinted<A>(table: map<string, A>, key: string, emptyError: string, unknownPrefix: string,
                          o: JObject, name: string)
    requires GetString(o, key) == Some(name) && name != []
    ensures name in table ==>
      RouteEnvelope(table, key, emptyError, unknownPrefix, Some(Print(o))) == Routed(table[name], GetString(o, Paras))
    ensures name !in table ==>
      RouteEnvelope(table, key, emptyError, unknownPrefix, Some(Print(o))) == Rejected(unknownPrefix + name)
  {
    ParsePrint(o);
    PrintNonEmpty(o);
  }

  /**
   * An envelope built by `PublishTopic`-style publishing, with a non-empty topic, reaches the
   * handler bound to the topic with its parameter text, or raises the unknown-topic error.
   */
  lemma HandleTopicMessage<C>(topics: map<string, TopicAction>, cmds: map<string, C>,
                              invoke: (C, Option<string>) -> seq<Event>, nameKey: string,
                              topic: string, paras: string)
    requires topic != []
    ensures topic in topics ==>
      HandleMessage(topics, cmds, invoke, nameKey, Some(TopicMessage(topic, paras)))
      == InvokeTopic(topics[topic], cmds, invoke, nameKey, Some(paras))
    ensures topic !in topics ==>
      HandleMessage(topics, cmds, invoke, nameKey, Some(TopicMessage(topic, paras)))
      == [ErrorMsg(UnknownTopicPrefix + topic)]
  {
    var o := [(CmdType, JStr(topic)), (Paras, JStr(paras))];
    TopicMessageRoundTrip(topic, paras);
    RouteOfPrinted(topics, CmdType, EmptyMessageError, UnknownTopicPrefix, o, topic);
  }

  /** Every rejection is one of the three errors: empty input, unparsable input, or an unbound name. */
  lemma RejectionKinds<A>(table: map<string, A>, key: string, emptyError: string, unknownPrefix: string,
                          msg: Option<string>)
    requires RouteEnvelope(table, key, emptyError, unknownPrefix, msg).Rejected?
    ensures var e := RouteEnvelope(table, key, emptyError, unknownPrefix, msg).error;
      || (IsNullOrEmpty(msg) && e == emptyError)
      || (!IsNullOrEmpty(msg) && Parse(msg.value).None? && e == ParseErrorPrefix + msg.value)
      || (!IsNullOrEmpty(msg) && Parse(msg.value).Some? &&
          var name := GetString(Parse(msg.value).value, key);
          (name.None? || name.value == [] || name.value !in table) && e == unknownPrefix + OrEmpty(name))
  {
  }

  /** The six base topics are six distinct names, so building the base table never adds a name twice. */
  lemma BaseTopicTableKeys()
    ensures BaseTopicTable().Keys == set t | t in BaseTopics()
    ensures |BaseTopicTable()| == 6
  {
    var k := BaseTopicTable().Keys;
    assert k == {TopicOnLine, TopicOffLine, TopicPing, TopicPang, TopicLostPayLoad, TopicOperation};
    assert (set t | t in BaseTopics()) == k;
  }
}
