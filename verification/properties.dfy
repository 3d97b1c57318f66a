/**
  Properties that relate several handler runs, the two permission sets, and
  a worked session.
 */
module Properties {
  import opened Telegram
  import opened Handlers
  import opened History

  /** The full grant sets every flag, and in particular turns back on every
      flag that the mute set turned off; the mute set turns off exactly the
      seven content-sending flags. */
  lemma FullGrantLiftsMute()
    ensures forall p: Permission :: p in FullPermissions && FullPermissions[p]
    ensures forall p :: p in MutePermissions ==> !MutePermissions[p] && FullPermissions[p]
    ensures MutePermissions.Keys ==
              {SendMessages, SendAudios, SendDocuments, SendPhotos, SendVideos, SendVideoNotes, SendVoiceNotes}
  {
    forall p: Permission
      ensures p in FullPermissions && FullPermissions[p]
    {
      match p
      case SendMessages | SendAudios | SendDocuments | SendPhotos | SendVideos | SendVideoNotes | SendVoiceNotes =>
      case SendPolls | SendOtherMessages | AddWebPagePreviews | ChangeInfo | InviteUsers | PinMessages | ManageTopics =>
    }
  }

  /** A join followed by a leave of the same user deletes exactly the captcha
      recorded at the join and gives back the table from before the join. */
  lemma JoinThenLeave(pending: Table, chat: ChatId, user: UserId, gw1: Gateway, gw2: Gateway)
    requires JoinEffect(pending, chat, user, gw1).outcome == Completed
    requires DeleteMessage(chat, gw1.captchaId) !in gw2.rejected
    ensures LeaveEffect(JoinEffect(pending, chat, user, gw1).pending, user, gw2)
            == Effect([DeleteMessage(chat, gw1.captchaId)], pending, Completed)
  {
    assert pending[user := Msg(chat, gw1.captchaId)] - {user} == pending;
  }

  /** A second join of a user whose captcha is still pending posts a second
      captcha but throws on recording it: the first captcha stays the one
      remembered, and the second one is never deleted by the bot. */
  lemma JoinTwice(pending: Table, chat1: ChatId, chat2: ChatId, user: UserId, gw1: Gateway, gw2: Gateway)
    requires JoinEffect(pending, chat1, user, gw1).outcome == Completed
    requires JoinCalls(chat2, user)[0] !in gw2.rejected && JoinCalls(chat2, user)[1] !in gw2.rejected
    ensures var e1 := JoinEffect(pending, chat1, user, gw1);
            var e2 := JoinEffect(e1.pending, chat2, user, gw2);
            e2.calls == JoinCalls(chat2, user) && e2.outcome == Aborted(DuplicateKey(user))
            && e2.pending[user] == Msg(chat1, gw1.captchaId)
  {
  }

  /** At-most-once resolution: once an answer has removed the user's entry, a
      further answer from them is only acknowledged, and the two together
      settle the user at most once. */
  lemma SecondAnswerOnlyAcknowledges(pending: Table, q1: CallbackQuery, gw1: Gateway, q2: CallbackQuery, gw2: Gateway)
    requires q2.from.id == q1.from.id
    requires q1.from.id !in CallbackEffect(pending, q1, gw1).pending
    ensures var e1 := CallbackEffect(pending, q1, gw1);
            var e2 := CallbackEffect(e1.pending, q2, gw2);
            e2.calls == [AnswerCallback(q2.id)] && e2.pending == e1.pending
            && Count(e1.calls + e2.calls, q1.from.id, VerdictGiven) <= 1
  {
    var e1 := CallbackEffect(pending, q1, gw1);
    var e2 := CallbackEffect(e1.pending, q2, gw2);
    var u := q1.from.id;
    CountAppend(e1.calls, e2.calls, u, VerdictGiven);
    CountShort(e1.calls, u, VerdictGiven);
    CountShort(e2.calls, u, VerdictGiven);
    MuteIsNotFull();
  }

  /** An answer that is neither button removes the user's entry and settles
      nothing: the user stays muted in the captcha's chat, with no entry left
      through which a later answer could release them. */
  lemma UnknownAnswerLeavesMuted(t: seq<Action>, pending: Table, q: CallbackQuery, gw: Gateway)
    requires Invariant(t, pending)
    requires q.from.id in pending
    requires q.data != Some(Accepted) && q.data != Some(Rejected)
    requires AnswerCallback(q.id) !in gw.rejected
    requires DeleteMessage(pending[q.from.id].chat, pending[q.from.id].id) !in gw.rejected
    ensures var e := CallbackEffect(pending, q, gw);
            && e.outcome == Completed
            && q.from.id !in e.pending
            && LastPerms(t + e.calls, pending[q.from.id].chat, q.from.id) == Some(MutePermissions)
            && Count(t + e.calls, q.from.id, VerdictGiven) == Count(t, q.from.id, VerdictGiven)
  {
    var e := CallbackEffect(pending, q, gw);
    var u := q.from.id;
    var c := pending[u].chat;
    LastPermsAppend(t, e.calls, c, u);
    LastPermsNone(e.calls, c, u);
    CountAppend(t, e.calls, u, VerdictGiven);
    CountShort(e.calls, u, VerdictGiven);
  }

  /** A session: Alice (user 42) joins chat 100 and gets captcha message 555;
      then each of the ways it can go on. */
  lemma Session()
    ensures
      var botId, alice := 1, User(42, false, "Alice");
      var gw := Gateway({}, 555);
      var joined := UpdateEffect(botId, map[], ChatMemberUpdate(ChatMemberUpdated(100, alice, ChatMember(Member, alice))), gw);
      && joined == Effect([Restrict(100, 42, MutePermissions), SendCaptcha(100, 42, CaptchaOptions)],
                          map[42 := Msg(100, 555)], Completed)
      && CallbackEffect(joined.pending, CallbackQuery("q", alice, Some(Accepted)), gw)
         == Effect([AnswerCallback("q"), DeleteMessage(100, 555), Restrict(100, 42, FullPermissions)], map[], Completed)
      && CallbackEffect(joined.pending, CallbackQuery("q", alice, Some(Rejected)), gw)
         == Effect([AnswerCallback("q"), DeleteMessage(100, 555), Ban(100, 42)], map[], Completed)
      && ChatMemberEffect(botId, joined.pending, ChatMemberUpdated(100, alice, ChatMember(Left, alice)), gw)
         == Effect([DeleteMessage(100, 555)], map[], Completed)
      && CallbackEffect(joined.pending, CallbackQuery("r", User(99, false, "Bob"), Some(Accepted)), gw)
         == Effect([AnswerCallback("r")], joined.pending, Completed)
  {
    assert map[42 := Msg(100, 555)] - {42} == map[];
  }
}
