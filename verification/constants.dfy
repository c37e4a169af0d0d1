/**
 * The string constants of `MqttClientConstants`: the broker topics each role uses, the
 * envelope keys, the dispatch topics, the command names and the parameter names.
 */
module Constants {

  // The broker topics.
  const MqttClientSendTopic: string := "MQTT_CLIENT_SEND_MSG"
  const MqttClientRecvTopic: string := "MQTT_CLIENT_RECV_MSG"
  const MqttClientHeartbeatTopic: string := "MQTT_CLIENT_HEARTBEAT_MSG"

  // The envelope keys.
  const CmdType: string := "MqttClientCmd"
  const LostPayLoadCmd: string := CmdType
  const LostPayLoadTopic: string := "TopicLostPayLoad"
  const Command: string := "Command"
  const Paras: string := "Paras"

  // The dispatch topics (`MqttClientConstants.Topic`).
  const TopicOnLine: string := "TopicOnLine"
  const TopicOffLine: string := "TopicOffLine"
  const TopicLostPayLoad: string := "TopicLostPayLoad"
  const TopicPing: string := "TopicPing"
  const TopicPang: string := "TopicPang"
  const TopicExit: string := "TopicExit"
  const TopicOperation: string := "TopicOperation"
  const TopicCallback: string := "TopicCallback"

  // The commands (`MqttClientConstants.Cmd`).
  const CmdSendValue: string := "SendValue"

  // The parameter names (`MqttClientConstants.Para`).
  const ParaMachineName: string := "MachineName"
  const ParaKey: string := "Key"
  const ParaValue: string := "Value"

  /** The six topics every handler table is built from, in the order they are added. */
  function BaseTopics(): (r: seq<string>)
    ensures |r| == 6
    ensures forall i, j :: 0 <= i < j < |r| ==> r[i] != r[j]
  {
    [TopicOnLine, TopicOffLine, TopicPing, TopicPang, TopicLostPayLoad, TopicOperation]
  }

  /** The three keys an envelope can carry are different names. */
  lemma EnvelopeKeysDistinct()
    ensures CmdType != Paras && CmdType != Command && Command != Paras
  {
  }

  /**
   * The will message key is the envelope's topic key and its value is the lost-payload
   * topic, so the will payload is itself a routable envelope.
   */
  lemma WillIsEnvelope()
    ensures LostPayLoadCmd == CmdType && LostPayLoadTopic == TopicLostPayLoad
  {
  }

  /** The send, receive and heartbeat topics are three different names. */
  lemma RoleTopicsDistinct()
    ensures MqttClientSendTopic != MqttClientRecvTopic
    ensures MqttClientHeartbeatTopic != MqttClientSendTopic && MqttClientHeartbeatTopic != MqttClientRecvTopic
  {
  }
}
