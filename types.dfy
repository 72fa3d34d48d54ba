/** The records exchanged between clients, the broker and the list store (backend/src/types.ts). */
module Types {
  import opened Common

  /** An opaque end-to-end encrypted body; the relay never looks inside. */
  datatype EncryptedPayload = EncryptedPayload(ciphertext: string, nonce: Option<string>, algorithm: string)

  /** A message body: `text` and `encrypted` as the wire carries them (absent is `null`). */
  datatype Body = Body(text: Option<string>, encrypted: Option<EncryptedPayload>)
  {
    /** Exactly one of plaintext and ciphertext is present. */
    predicate Exclusive() { text.Some? != encrypted.Some? }
  }

  datatype ChatMessage = ChatMessage(id: string, room: string, user: string, body: Body, ts: int)

  datatype DirectMessage = DirectMessage(id: string, from: string, to: string, body: Body, ts: int)

  datatype TypingEvent = TypingEvent(room: string, user: string, isTyping: bool, ts: int)

  datatype PrivateTypingEvent = PrivateTypingEvent(from: string, to: string, isTyping: bool, ts: int)

  datatype KeyExchangeEvent = KeyExchangeEvent(from: string, to: string, publicKey: string, algorithm: string, ts: int)

  /** What the server pushes to a client: the payload of a Socket.IO event. */
  datatype Out =
    | RoomHistory(room: string, messages: seq<ChatMessage>)
    | MessageOut(message: ChatMessage)
    | TypingOut(typing: TypingEvent)
    | Presence(room: string, user: string)
    | DirectOut(direct: DirectMessage)
    | PrivateTypingOut(privateTyping: PrivateTypingEvent)
    | KeyExchangeOut(keyExchange: KeyExchangeEvent)

  /** The `{ type, payload }` events relayed on a per-user channel. */
  datatype UserEvent =
    | PrivateMessageNotice(message: DirectMessage)
    | PrivateTypingNotice(typing: PrivateTypingEvent)
    | KeyExchangeNotice(exchange: KeyExchangeEvent)
  {
    /** The event name a client receives the payload under. */
    function Type(): string
    {
      match this
      case PrivateMessageNotice(_) => "private_message"
      case PrivateTypingNotice(_) => "private_typing"
      case KeyExchangeNotice(_) => "key_exchange"
    }

    function Payload(): Out
    {
      match this
      case PrivateMessageNotice(m) => DirectOut(m)
      case PrivateTypingNotice(e) => PrivateTypingOut(e)
      case KeyExchangeNotice(e) => KeyExchangeOut(e)
    }
  }

  /**
   * A serialized document as it sits in a list or travels over a channel:
   * either the JSON text of a value, or text that `JSON.parse` rejects.
   */
  datatype Wire<T> = Json(value: T) | Malformed(text: string)

  /** `JSON.stringify`. */
  function Serialize<T>(x: T): Wire<T>
  {
    Json(x)
  }

  /** A broker publication payload, by the kind of document it carries. */
  datatype Post =
    | ChatPost(chat: Wire<ChatMessage>)
    | TypingPost(typing: Wire<TypingEvent>)
    | UserPost(event: Wire<UserEvent>)
}
