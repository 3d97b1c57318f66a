/**
  The bot process itself: the in-memory table of pending captchas, updated in
  place by the update handlers after each awaited gateway call, and the
  history of gateway calls made so far (the bot's observable behaviour).
 */
module Bot {
  import opened Telegram
  import opened Handlers
  import History

  class CaptchaBot {
    /** The bot's own account id. */
    const botId: UserId
    /** User id to the captcha message sent to that user. */
    var pending: Table
    /** Every gateway call attempted so far, in order. */
    var trace: seq<Action>

    /** At-most-once resolution, and every pending user muted. */
    ghost predicate Valid()
      reads this
    {
      History.Invariant(trace, pending)
    }

    constructor (botId: UserId)
      ensures this.botId == botId && pending == map[] && trace == []
      ensures Valid()
    {
      this.botId := botId;
      pending := map[];
      trace := [];
    }

    /** Await one gateway call: it is made whether or not the gateway then
        rejects it; `ok` is false when it does. */
    method Call(a: Action, gw: Gateway) returns (ok: bool)
      modifies this`trace
      ensures trace == old(trace) + [a]
      ensures ok <==> a !in gw.rejected
    {
      trace := trace + [a];
      ok := a !in gw.rejected;
    }

    method OnUpdate(upd: Update, gw: Gateway) returns (outcome: Outcome)
      requires Valid()
      modifies this
      ensures Valid()
      ensures var e := UpdateEffect(botId, old(pending), upd, gw);
        trace == old(trace) + e.calls && pending == e.pending && outcome == e.outcome
    {
      match upd
      case ChatMemberUpdate(m) => outcome := OnChatMember(m, gw);
      case CallbackQueryUpdate(q) => outcome := OnCallbackQuery(q, gw);
      case OtherUpdate => outcome := Aborted(UnknownUpdateType);
    }

    method OnChatMember(m: ChatMemberUpdated, gw: Gateway) returns (outcome: Outcome)
      requires Valid()
      modifies this
      ensures Valid()
      ensures var e := ChatMemberEffect(botId, old(pending), m, gw);
        trace == old(trace) + e.calls && pending == e.pending && outcome == e.outcome
    {
      History.UpdateKeepsInvariant(botId, trace, pending, ChatMemberUpdate(m), gw);
      outcome := Completed;
      if m.from.id == botId {
        return;
      }
      var user := m.newChatMember.user;
      if m.newChatMember.status == Member {
        if user.isBot {
          return;
        }
        var mute := Restrict(m.chat, user.id, MutePermissions);
        var ok := Call(mute, gw);
        if !ok {
          return Aborted(GatewayFailure(mute));
        }
        var send := SendCaptcha(m.chat, user.id, CaptchaOptions);
        ok := Call(send, gw);
        assert trace == old(trace) + [mute, send];
        if !ok {
          return Aborted(GatewayFailure(send));
        }
        var captcha := Msg(m.chat, gw.captchaId);
        if user.id in pending {
          return Aborted(DuplicateKey(user.id));
        }
        pending := pending[user.id := captcha];
      } else if m.newChatMember.status == Left {
        if user.id !in pending {
          return;
        }
        var captcha := pending[user.id];
        var delete := DeleteMessage(captcha.chat, captcha.id);
        var ok := Call(delete, gw);
        if !ok {
          return Aborted(GatewayFailure(delete));
        }
        pending := pending - {user.id};
      }
    }

    method OnCallbackQuery(q: CallbackQuery, gw: Gateway) returns (outcome: Outcome)
      requires Valid()
      modifies this
      ensures Valid()
      ensures var e := CallbackEffect(old(pending), q, gw);
        trace == old(trace) + e.calls && pending == e.pending && outcome == e.outcome
    {
      History.UpdateKeepsInvariant(botId, trace, pending, CallbackQueryUpdate(q), gw);
      var ack := AnswerCallback(q.id);
      var ok := Call(ack, gw);
      if !ok {
        return Aborted(GatewayFailure(ack));
      }
      var user := q.from.id;
      outcome := Completed;
      if user !in pending {
        return;
      }
      var captcha := pending[user];
      var chat := captcha.chat;
      var delete := DeleteMessage(captcha.chat, captcha.id);
      ok := Call(delete, gw);
      assert trace == old(trace) + [ack, delete];
      if !ok {
        return Aborted(GatewayFailure(delete));
      }
      pending := pending - {user};
      if q.data == Some(Accepted) {
        var grant := Restrict(chat, user, FullPermissions);
        ok := Call(grant, gw);
        assert trace == old(trace) + [ack, delete, grant];
        if !ok {
          return Aborted(GatewayFailure(grant));
        }
      } else if q.data == Some(Rejected) {
        var ban := Ban(chat, user);
        ok := Call(ban, gw);
        assert trace == old(trace) + [ack, delete, ban];
        if !ok {
          return Aborted(GatewayFailure(ban));
        }
      }
    }
  }
}
