/**
  The parts of the chat platform that the captcha bot reads (updates, users,
  chat-member records, callback queries) and the calls it makes on the
  platform's gateway, written as plain values.

  Identifiers are 64-bit integers on the platform; they are only compared for
  equality here, so they are modelled as unbounded integers.
 */
module Telegram {

  type UserId = int
  type ChatId = int
  type MessageId = int

  datatype Option<+T> = None | Some(value: T)

  /** An account: `IsBot` tells automated accounts from people. */
  datatype User = User(id: UserId, isBot: bool, firstName: string)

  /** A message the bot has posted: the chat it is in and its id there. */
  datatype Msg = Msg(chat: ChatId, id: MessageId)

  /** The kinds of chat-member record the platform sends. */
  datatype MemberStatus = Owner | Administrator | Member | Restricted | Left | Banned

  datatype ChatMember = ChatMember(status: MemberStatus, user: User)

  /** A change of someone's membership in a chat, made by the account `from`. */
  datatype ChatMemberUpdated = ChatMemberUpdated(chat: ChatId, from: User, newChatMember: ChatMember)

  /** A press on an inline button; `data` is the button's payload, if any. */
  datatype CallbackQuery = CallbackQuery(id: string, from: User, data: Option<string>)

  /** An inbound update: the two kinds the bot subscribes to, and every other kind. */
  datatype Update =
    | ChatMemberUpdate(chatMember: ChatMemberUpdated)
    | CallbackQueryUpdate(callbackQuery: CallbackQuery)
    | OtherUpdate

  /** The flags of a chat permission set. */
  datatype Permission =
    | SendMessages | SendAudios | SendDocuments | SendPhotos | SendVideos
    | SendVideoNotes | SendVoiceNotes | SendPolls | SendOtherMessages
    | AddWebPagePreviews | ChangeInfo | InviteUsers | PinMessages | ManageTopics

  /** A permission set: the flags it sets, each to true or false; a flag that
      is not a key is left unset. */
  type Permissions = map<Permission, bool>

  /** One call on the platform's gateway. */
  datatype Action =
    | Restrict(chat: ChatId, user: UserId, perms: Permissions)
    | SendCaptcha(chat: ChatId, user: UserId, options: seq<string>)
    | DeleteMessage(chat: ChatId, messageId: MessageId)
    | Ban(chat: ChatId, user: UserId)
    | AnswerCallback(queryId: string)

  /** How the gateway answers the calls of one handler run: the calls it
      rejects (a rejected call throws and aborts the handler) and the id it
      gives to the captcha message it posts. */
  datatype Gateway = Gateway(rejected: set<Action>, captchaId: MessageId)
}
