/**
  What each update handler of the captcha bot does, as a function of the
  pending-captcha table before it runs and of the gateway's answers: the
  gateway calls it makes, in order, the table afterwards, and whether it
  completed or threw.
 */
module Handlers {
  import opened Telegram

  /** The pending-captcha table: user id to the captcha message sent to them. */
  type Table = map<UserId, Msg>

  /** Why a handler throws. */
  datatype Error =
    | GatewayFailure(call: Action)   // an awaited gateway call failed
    | DuplicateKey(user: UserId)     // the table already held the user's id
    | UnknownUpdateType              // the update is of neither subscribed kind

  datatype Outcome = Completed | Aborted(error: Error)

  /** One handler run: the gateway calls made, the new table, the outcome. */
  datatype Effect = Effect(calls: seq<Action>, pending: Table, outcome: Outcome)

  /** The two button payloads of the captcha: the accepted and the rejected answer. */
  const Accepted: string := "Украины"
  const Rejected: string := "России"
  const CaptchaOptions: seq<string> := [Accepted, Rejected]

  /** The set applied on join: every content-sending flag off, the rest unset. */
  const MutePermissions: Permissions := map[
    SendMessages := false, SendAudios := false, SendDocuments := false,
    SendPhotos := false, SendVideos := false, SendVideoNotes := false,
    SendVoiceNotes := false]

  /** The set applied on an accepted answer: every flag on. */
  const FullPermissions: Permissions := map[
    SendMessages := true, SendAudios := true, SendDocuments := true,
    SendPhotos := true, SendVideos := true, SendVideoNotes := true,
    SendVoiceNotes := true, SendPolls := true, SendOtherMessages := true,
    AddWebPagePreviews := true, ChangeInfo := true, InviteUsers := true,
    PinMessages := true, ManageTopics := true]

  /** A run stops at the first call the gateway rejects, throwing with that
      call; a run that throws a gateway failure does so at a rejected call. */
  predicate StopsAtRejection(e: Effect, gw: Gateway) {
    && (forall i :: 0 <= i < |e.calls| && e.calls[i] in gw.rejected ==>
          i == |e.calls| - 1 && e.outcome == Aborted(GatewayFailure(e.calls[i])))
    && (e.outcome.Aborted? && e.outcome.error.GatewayFailure? ==>
          e.calls != [] && e.calls[|e.calls| - 1] == e.outcome.error.call && e.outcome.error.call in gw.rejected)
  }

  function Unchanged(pending: Table): Effect {
    Effect([], pending, Completed)
  }

  /** The two calls a join makes, restriction first. */
  function JoinCalls(chat: ChatId, user: UserId): seq<Action> {
    [Restrict(chat, user, MutePermissions), SendCaptcha(chat, user, CaptchaOptions)]
  }

  /** A person joined `chat`: mute them, post the captcha, then record it.
      Recording uses an insertion that throws when the id is already a key. */
  function JoinEffect(pending: Table, chat: ChatId, user: UserId, gw: Gateway): (e: Effect)
    ensures e.calls == if JoinCalls(chat, user)[0] in gw.rejected then [JoinCalls(chat, user)[0]] else JoinCalls(chat, user)
    ensures StopsAtRejection(e, gw)
    ensures e.outcome == Completed <==>
              user !in pending && JoinCalls(chat, user)[0] !in gw.rejected && JoinCalls(chat, user)[1] !in gw.rejected
    ensures e.outcome == Completed ==>
              e.calls == JoinCalls(chat, user) && e.pending == pending[user := Msg(chat, gw.captchaId)]
    ensures e.outcome != Completed ==> e.pending == pending
    ensures user in pending ==> e.pending == pending && e.outcome.Aborted?
    ensures user in pending && JoinCalls(chat, user)[0] !in gw.rejected && JoinCalls(chat, user)[1] !in gw.rejected ==>
              e == Effect(JoinCalls(chat, user), pending, Aborted(DuplicateKey(user)))
  {
    var mute := Restrict(chat, user, MutePermissions);
    var send := SendCaptcha(chat, user, CaptchaOptions);
    if mute in gw.rejected then Effect([mute], pending, Aborted(GatewayFailure(mute)))
    else if send in gw.rejected then Effect([mute, send], pending, Aborted(GatewayFailure(send)))
    else if user in pending then Effect([mute, send], pending, Aborted(DuplicateKey(user)))
    else Effect([mute, send], pending[user := Msg(chat, gw.captchaId)], Completed)
  }

  /** A member left: delete their captcha, if any, then forget it. */
  function LeaveEffect(pending: Table, user: UserId, gw: Gateway): (e: Effect)
    ensures user !in pending ==> e == Unchanged(pending)
    ensures user in pending ==> e.calls == [DeleteMessage(pending[user].chat, pending[user].id)]
    ensures e.pending == pending || (e.outcome == Completed && e.pending == pending - {user})
    ensures user !in e.pending <==> user !in pending || e.outcome == Completed
    ensures e.outcome == Completed <==> user !in pending || e.calls[0] !in gw.rejected
    ensures StopsAtRejection(e, gw)
  {
    if user !in pending then Unchanged(pending)
    else
      var delete := DeleteMessage(pending[user].chat, pending[user].id);
      if delete in gw.rejected then Effect([delete], pending, Aborted(GatewayFailure(delete)))
      else Effect([delete], pending - {user}, Completed)
  }

  /** The chat-member updates the bot does nothing for: those made by the bot
      itself, joins of automated accounts, and statuses other than member and left. */
  predicate Ignored(botId: UserId, m: ChatMemberUpdated) {
    || m.from.id == botId
    || (m.newChatMember.status == Member && m.newChatMember.user.isBot)
    || m.newChatMember.status !in {Member, Left}
  }

  function ChatMemberEffect(botId: UserId, pending: Table, m: ChatMemberUpdated, gw: Gateway): (e: Effect)
    ensures Ignored(botId, m) ==> e == Unchanged(pending)
    ensures e.calls == [] <==>
              Ignored(botId, m) || (m.newChatMember.status == Left && m.newChatMember.user.id !in pending)
    ensures e.calls == [] ==> e == Unchanged(pending)
    ensures e.pending - {m.newChatMember.user.id} == pending - {m.newChatMember.user.id}
    ensures StopsAtRejection(e, gw)
  {
    var user := m.newChatMember.user;
    if m.from.id == botId then Unchanged(pending)
    else match m.newChatMember.status
      case Member => if user.isBot then Unchanged(pending) else JoinEffect(pending, m.chat, user.id, gw)
      case Left => LeaveEffect(pending, user.id, gw)
      case _ => Unchanged(pending)
  }

  /** The call that settles an answer given to the captcha `msg`, if the
      payload is one of the two buttons. */
  function Verdict(data: Option<string>, msg: Msg, user: UserId): (v: Option<Action>)
    ensures v == Some(Restrict(msg.chat, user, FullPermissions)) <==> data == Some(Accepted)
    ensures v == Some(Ban(msg.chat, user)) <==> data == Some(Rejected)
    ensures v == None <==> data !in {Some(Accepted), Some(Rejected)}
  {
    if data == Some(Accepted) then Some(Restrict(msg.chat, user, FullPermissions))
    else if data == Some(Rejected) then Some(Ban(msg.chat, user))
    else None
  }

  /** A captcha button was pressed: acknowledge the press; if the presser has
      a pending captcha, delete it, forget it, then settle the answer. */
  function CallbackEffect(pending: Table, q: CallbackQuery, gw: Gateway): (e: Effect)
    ensures |e.calls| >= 1 && e.calls[0] == AnswerCallback(q.id)
    ensures StopsAtRejection(e, gw)
    ensures AnswerCallback(q.id) in gw.rejected ==>
              e == Effect([AnswerCallback(q.id)], pending, Aborted(GatewayFailure(AnswerCallback(q.id))))
    ensures q.from.id !in pending ==> e.calls == [AnswerCallback(q.id)] && e.pending == pending
    ensures q.from.id !in pending ==> (e.outcome == Completed <==> AnswerCallback(q.id) !in gw.rejected)
    ensures |e.calls| >= 2 ==>
              q.from.id in pending && e.calls[1] == DeleteMessage(pending[q.from.id].chat, pending[q.from.id].id)
    ensures e.pending == pending || (|e.calls| >= 2 && e.calls[1] !in gw.rejected && e.pending == pending - {q.from.id})
    ensures |e.calls| <= 3 && (|e.calls| == 3 ==> e.pending == pending - {q.from.id})
    ensures q.from.id in pending && e.calls[0] !in gw.rejected ==>
              var msg := pending[q.from.id];
              var delete := DeleteMessage(msg.chat, msg.id);
              if delete in gw.rejected then e == Effect([e.calls[0], delete], pending, Aborted(GatewayFailure(delete)))
              else e.pending == pending - {q.from.id} && e.calls[..2] == [e.calls[0], delete] &&
                   match Verdict(q.data, msg, q.from.id)
                   case None => e.calls == [e.calls[0], delete] && e.outcome == Completed
                   case Some(v) => e.calls[2..] == [v] && (e.outcome == Completed <==> v !in gw.rejected)
  {
    var ack := AnswerCallback(q.id);
    var user := q.from.id;
    if ack in gw.rejected then Effect([ack], pending, Aborted(GatewayFailure(ack)))
    else if user !in pending then Effect([ack], pending, Completed)
    else
      var msg := pending[user];
      var delete := DeleteMessage(msg.chat, msg.id);
      if delete in gw.rejected then Effect([ack, delete], pending, Aborted(GatewayFailure(delete)))
      else
        var rest := pending - {user};
        match Verdict(q.data, msg, user)
        case None => Effect([ack, delete], rest, Completed)
        case Some(v) =>
          if v in gw.rejected then Effect([ack, delete, v], rest, Aborted(GatewayFailure(v)))
          else Effect([ack, delete, v], rest, Completed)
  }

  /** The user an update is about: the member whose status changed, or the
      presser of a button. */
  function Subject(u: Update): set<UserId> {
    match u
    case ChatMemberUpdate(m) => {m.newChatMember.user.id}
    case CallbackQueryUpdate(q) => {q.from.id}
    case OtherUpdate => {}
  }

  /** Dispatch on the kind of update; any other kind throws. */
  function UpdateEffect(botId: UserId, pending: Table, u: Update, gw: Gateway): (e: Effect)
    ensures u.OtherUpdate? <==> e.outcome == Aborted(UnknownUpdateType)
    ensures u.OtherUpdate? ==> e.calls == [] && e.pending == pending
    ensures e.pending - Subject(u) == pending - Subject(u)
    ensures StopsAtRejection(e, gw)
  {
    match u
    case ChatMemberUpdate(m) => ChatMemberEffect(botId, pending, m, gw)
    case CallbackQueryUpdate(q) => CallbackEffect(pending, q, gw)
    case OtherUpdate => Effect([], pending, Aborted(UnknownUpdateType))
  }
}
