/**
 * The Telegram Bot API client: the envelope check every call shares
 * (`request`), the identity lookup (`newTelegram`) and message sending
 * (`sendMessage`). The HTTP round trip and JSON decoding are outside the
 * model: a call is given the reply it received, already decoded.
 */
module Telegram {
  import opened Wrappers
  import opened Errors
  import Decimal

  /** The form a `sendMessage` call posts (`url.Values` with one value per key). */
  type Form = map<string, string>

  /** The JSON envelope every Bot API reply carries; a missing description decodes as "". */
  datatype Envelope<T> = Envelope(ok: bool, description: string, result: T)

  /** What one round trip produced. */
  datatype Reply<T> =
    | Unreachable(cause: string)     // the POST itself failed
    | Garbled(cause: string)         // the body did not decode
    | Decoded(envelope: Envelope<T>)

  /** The part of getMe's result the client reads. */
  datatype User = User(userName: string)

  /** The part of sendMessage's result the client reads. */
  datatype SentMessage = SentMessage(messageId: int)

  /** A connected client: its token and the bot's user name. */
  datatype Bot = Bot(token: string, userName: string)

  /** `request`: the call succeeds exactly when the reply decoded and says ok. */
  function Request<T>(reply: Reply<T>): (r: Result<T, Error>)
    ensures r.Success? <==> reply.Decoded? && reply.envelope.ok
    ensures r.Success? ==> r.value == reply.envelope.result
    ensures reply.Unreachable? ==> r == Failure(Transport(reply.cause))
    ensures reply.Garbled? ==> r == Failure(Undecodable(reply.cause))
    ensures reply.Decoded? && !reply.envelope.ok ==>
              r.Failure? && DescriptionOf(Message(r.error)) == Some(reply.envelope.description)
    ensures reply.Decoded? && !reply.envelope.ok && reply.envelope.description == "" ==>
              r.Failure? && Message(r.error) == RequestFailedText
  {
    match reply
    case Unreachable(cause) => Failure(Transport(cause))
    case Garbled(cause) => Failure(Undecodable(cause))
    case Decoded(envelope) =>
      if !envelope.ok then Failure(RequestFailed(envelope.description))
      else Success(envelope.result)
  }

  /**
   * `newTelegram`: connects when getMe succeeded and named a user, and keeps
   * exactly that user name.
   */
  function NewTelegram(token: string, reply: Reply<User>): (r: Result<Bot, Error>)
    ensures r.Success? <==> reply.Decoded? && reply.envelope.ok && reply.envelope.result.userName != ""
    ensures r.Success? ==> r.value == Bot(token, reply.envelope.result.userName)
    ensures Request(reply).Failure? ==> r == Failure(Request(reply).error)
    ensures Request(reply).Success? && reply.envelope.result.userName == "" ==> r == Failure(NoBotUsername)
  {
    match Request(reply)
    case Failure(e) => Failure(e)
    case Success(me) =>
      if me.userName == "" then Failure(NoBotUsername) else Success(Bot(token, me.userName))
  }

  const ChatIdKey := "chat_id"
  const TextKey := "text"
  const ParseModeKey := "parse_mode"
  const DisableNotificationKey := "disable_notification"
  const ReplyToKey := "reply_to_message_id"

  /** The parameters `sendMessage` posts. */
  function SendForm(chatId: string, text: string, disableNotification: bool, replyTo: int): (f: Form)
    ensures ChatIdKey in f && f[ChatIdKey] == chatId
    ensures TextKey in f && f[TextKey] == text
    ensures ParseModeKey in f && f[ParseModeKey] == "HTML"
    ensures DisableNotificationKey in f <==> disableNotification
    ensures disableNotification ==> f[DisableNotificationKey] == "true"
    ensures ReplyToKey in f <==> replyTo >= 0
    ensures replyTo >= 0 ==> f[ReplyToKey] == Decimal.FormatInt(replyTo)
    ensures replyTo >= 0 ==> Decimal.ParseInt(f[ReplyToKey]) == Some(replyTo)
    ensures f.Keys <= {ChatIdKey, TextKey, ParseModeKey, DisableNotificationKey, ReplyToKey}
  {
    var base := map[ChatIdKey := chatId, TextKey := text, ParseModeKey := "HTML"];
    var quiet := if disableNotification then base[DisableNotificationKey := "true"] else base;
    if replyTo >= 0 then quiet[ReplyToKey := Decimal.FormatInt(replyTo)] else quiet
  }

  /**
   * `sendMessage`: posts `SendForm(...)` through `post` and returns the new
   * message's id, or the error of the round trip.
   */
  function SendMessage(chatId: string, text: string, disableNotification: bool, replyTo: int,
                       post: Form -> Reply<SentMessage>): (r: Result<int, Error>)
    ensures var reply := post(SendForm(chatId, text, disableNotification, replyTo));
            && (r.Success? <==> Request(reply).Success?)
            && (r.Success? ==> r.value == reply.envelope.result.messageId)
            && (r.Failure? ==> r.error == Request(reply).error)
  {
    match Request(post(SendForm(chatId, text, disableNotification, replyTo)))
    case Failure(e) => Failure(e)
    case Success(m) => Success(m.messageId)
  }
}
