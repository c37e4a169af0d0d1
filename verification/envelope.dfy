/**
 * The envelopes the handlers publish (`PublishPing`, `PublishPang`, `PublishOnLine`,
 * `PublishOffLine`, `PublishTopic`) and the will payload of the client manager.
 *
 * An envelope is the object `{MqttClientCmd: topic, Paras: text}` where `text` is itself
 * the printed parameter object: the nesting is a string inside a string, not an object
 * inside an object.
 */
module Envelope {
  import opened Wrappers
  import opened Text
  import opened Json
  import opened Constants

  /** What `jObject[key] = s` stores for a possibly-null C# string. */
  function StringValue(s: Option<string>): (v: JValue)
    ensures AsString(v) == s
  {
    match s
    case None => JNull
    case Some(t) => JStr(t)
  }

  /** The printed envelope `{MqttClientCmd: topic, Paras: paras}`. */
  function TopicMessage(topic: string, paras: string): string {
    Print([(CmdType, JStr(topic)), (Paras, JStr(paras))])
  }

  /** The parameter object `{Key: key}` of a ping or a pong. */
  function KeyParas(key: Option<string>): string {
    Print([(ParaKey, StringValue(key))])
  }

  /** `PublishPing(key)`: the envelope a ping publishes. */
  function PingMessage(key: Option<string>): string {
    TopicMessage(TopicPing, KeyParas(key))
  }

  /** `PublishPang(key)`: the envelope a pong publishes. */
  function PangMessage(key: Option<string>): string {
    TopicMessage(TopicPang, KeyParas(key))
  }

  /** The parameter object `{MachineName: machineName}` of an on-line or off-line envelope. */
  function MachineParas(machineName: string): string {
    Print([(ParaMachineName, JStr(machineName))])
  }

  /** `PublishOnLine()`, with `Environment.MachineName` as a parameter. */
  function OnLineMessage(machineName: string): string {
    TopicMessage(TopicOnLine, MachineParas(machineName))
  }

  /** `PublishOffLine()`, with `Environment.MachineName` as a parameter. */
  function OffLineMessage(machineName: string): string {
    TopicMessage(TopicOffLine, MachineParas(machineName))
  }

  /** `PublishTopic(topic)`: an envelope with a topic and no `Paras`. */
  function BareTopicMessage(topic: Option<string>): string {
    Print([(CmdType, StringValue(topic))])
  }

  /** The will payload `{LostPayLoadCmd: LostPayLoadTopic}` the client manager registers. */
  function WillPayload(lostPayLoadCmd: string, lostPayLoadTopic: string): string {
    Print([(lostPayLoadCmd, JStr(lostPayLoadTopic))])
  }

  /** The topic and the parameter text of a parsed envelope, as the handlers read them. */
  function TopicOf(o: JObject): Option<string> {
    GetString(o, CmdType)
  }

  function ParasOf(o: JObject): Option<string> {
    GetString(o, Paras)
  }

  /** A printed envelope parses back to its topic and its parameter text. */
  lemma TopicMessageRoundTrip(topic: string, paras: string)
    ensures Parse(TopicMessage(topic, paras)).Some?
    ensures TopicOf(Parse(TopicMessage(topic, paras)).value) == Some(topic)
    ensures ParasOf(Parse(TopicMessage(topic, paras)).value) == Some(paras)
  {
    var o := [(CmdType, JStr(topic)), (Paras, JStr(paras))];
    ParsePrint(o);
    EnvelopeKeysDistinct();
    assert o[1..] == [(Paras, JStr(paras))];
    assert Lookup(o, Paras) == Lookup(o[1..], Paras);
  }

  /** The key a ping or pong carries parses back unchanged, null included. */
  lemma KeyParasRoundTrip(key: Option<string>)
    ensures Parse(KeyParas(key)).Some?
    ensures GetString(Parse(KeyParas(key)).value, ParaKey) == key
  {
    ParsePrint([(ParaKey, StringValue(key))]);
  }

  /** The machine name an on-line or off-line envelope carries parses back unchanged. */
  lemma MachineParasRoundTrip(machineName: string)
    ensures ParseNullable(Some(MachineParas(machineName))) == Some([(ParaMachineName, JStr(machineName))])
  {
    ParsePrint([(ParaMachineName, JStr(machineName))]);
  }

  /** `PublishTopic(t)` carries the topic `t` and no `Paras` property. */
  lemma BareTopicMessageRoundTrip(topic: Option<string>)
    ensures Parse(BareTopicMessage(topic)).Some?
    ensures TopicOf(Parse(BareTopicMessage(topic)).value) == topic
    ensures Lookup(Parse(BareTopicMessage(topic)).value, Paras).None?
  {
    ParsePrint([(CmdType, StringValue(topic))]);
    EnvelopeKeysDistinct();
  }
}
