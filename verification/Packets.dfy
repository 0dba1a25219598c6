/** The packets that cross the delivery service, and the constants of its content topics. */
module Packets {
  type byte = x: int | 0 <= x < 256

  type Bytes = seq<byte>

  datatype OutboundPacket = OutboundPacket(payload: Bytes, subtopic: string, conversationId: string, appId: Bytes)

  datatype InboundPacket = InboundPacket(
    payload: Bytes, subtopic: string, conversationId: string, appId: Bytes, timestamp: int)

  const CONVERSATION_VERSION := "1"
  const APP_MSG_SUBTOPIC := "app_msg"
  const WELCOME_SUBTOPIC := "welcome"
  const SUBTOPICS: seq<string> := [APP_MSG_SUBTOPIC, WELCOME_SUBTOPIC]
}
