/**
  Facts about the whole history of gateway calls the bot has made, kept by
  every handler run:
  - at-most-once resolution: a user gets no more verdicts (a ban or a full
    grant) than attempted captcha posts (a post the gateway rejected counts
    too), and a pending captcha is one not yet spent on a verdict;
  - a user with a pending captcha is muted: the last permission set applied
    to them in the captcha's chat is the mute set.
 */
module History {
  import opened Telegram
  import opened Handlers

  datatype Kind = CaptchaSent | VerdictGiven

  predicate IsA(a: Action, u: UserId, k: Kind) {
    match k
    case CaptchaSent => a.SendCaptcha? && a.user == u
    case VerdictGiven => (a.Ban? && a.user == u) || (a.Restrict? && a.user == u && a.perms == FullPermissions)
  }

  /** How many calls of kind `k` about user `u` the history `t` holds,
      whether or not the gateway accepted them. */
  function Count(t: seq<Action>, u: UserId, k: Kind): nat {
    if t == [] then 0 else Count(t[..|t| - 1], u, k) + (if IsA(t[|t| - 1], u, k) then 1 else 0)
  }

  lemma {:induction false} CountAppend(t: seq<Action>, s: seq<Action>, u: UserId, k: Kind)
    ensures Count(t + s, u, k) == Count(t, u, k) + Count(s, u, k)
  {
    if s != [] {
      CountAppend(t, s[..|s| - 1], u, k);
      assert (t + s)[..|t + s| - 1] == t + s[..|s| - 1];
    } else {
      assert t + s == t;
    }
  }

  /** 1 when the `i`-th call of `s` is of kind `k` about `u`, else 0. */
  function Hit(s: seq<Action>, i: nat, u: UserId, k: Kind): nat {
    if i < |s| && IsA(s[i], u, k) then 1 else 0
  }

  /** A handler makes at most three calls; their count, call by call. */
  lemma {:induction false} CountShort(s: seq<Action>, u: UserId, k: Kind)
    requires |s| <= 3
    ensures Count(s, u, k) == Hit(s, 0, u, k) + Hit(s, 1, u, k) + Hit(s, 2, u, k)
  {
    if s != [] {
      var init := s[..|s| - 1];
      CountShort(init, u, k);
      assert forall i :: 0 <= i < |init| ==> init[i] == s[i];
    }
  }

  /** The permission set most recently applied to user `u` in chat `c`, if any. */
  function LastPerms(t: seq<Action>, c: ChatId, u: UserId): Option<Permissions> {
    if t == [] then None
    else
      var a := t[|t| - 1];
      if a.Restrict? && a.chat == c && a.user == u then Some(a.perms)
      else LastPerms(t[..|t| - 1], c, u)
  }

  lemma {:induction false} LastPermsAppend(t: seq<Action>, s: seq<Action>, c: ChatId, u: UserId)
    ensures LastPerms(t + s, c, u) == if LastPerms(s, c, u).Some? then LastPerms(s, c, u) else LastPerms(t, c, u)
  {
    if s != [] {
      LastPermsAppend(t, s[..|s| - 1], c, u);
      assert (t + s)[..|t + s| - 1] == t + s[..|s| - 1];
    } else {
      assert t + s == t;
    }
  }

  lemma MuteIsNotFull()
    ensures MutePermissions != FullPermissions
  {
    assert SendPolls in FullPermissions;
  }

  /** A history that applies no permission set to `u` in `c` has none to report. */
  lemma {:induction false} LastPermsNone(s: seq<Action>, c: ChatId, u: UserId)
    requires forall i :: 0 <= i < |s| ==> !(s[i].Restrict? && s[i].chat == c && s[i].user == u)
    ensures LastPerms(s, c, u) == None
  {
    if s != [] {
      LastPermsNone(s[..|s| - 1], c, u);
    }
  }

  ghost predicate AtMostOnce(t: seq<Action>, pending: Table) {
    forall u :: Count(t, u, VerdictGiven) + (if u in pending then 1 else 0) <= Count(t, u, CaptchaSent)
  }

  ghost predicate PendingMuted(t: seq<Action>, pending: Table) {
    forall u :: u in pending ==> LastPerms(t, pending[u].chat, u) == Some(MutePermissions)
  }

  ghost predicate Invariant(t: seq<Action>, pending: Table) {
    AtMostOnce(t, pending) && PendingMuted(t, pending)
  }

  /** One run changes user `u`'s balance of captchas against verdicts and
      pending entries by a non-negative amount. */
  lemma StepBalance(botId: UserId, pending: Table, upd: Update, gw: Gateway, u: UserId)
    ensures var e := UpdateEffect(botId, pending, upd, gw);
      Count(e.calls, u, VerdictGiven) + (if u in e.pending then 1 else 0)
      <= Count(e.calls, u, CaptchaSent) + (if u in pending then 1 else 0)
  {
    var e := UpdateEffect(botId, pending, upd, gw);
    CountShort(e.calls, u, VerdictGiven);
    CountShort(e.calls, u, CaptchaSent);
    MuteIsNotFull();
    match upd
    case OtherUpdate =>
    case ChatMemberUpdate(m) =>
      var user := m.newChatMember.user;
      if m.from.id != botId && m.newChatMember.status == Member && !user.isBot {
        var calls := JoinCalls(m.chat, user.id);
        assert e == JoinEffect(pending, m.chat, user.id, gw);
        assert |e.calls| == 2 ==> e.calls == calls;
      }
    case CallbackQueryUpdate(q) =>
  }

  /** After one run, each pending user either was just muted by it, or kept
      the entry they had and no permission set was applied to them. */
  lemma StepMutes(botId: UserId, pending: Table, upd: Update, gw: Gateway, u: UserId)
    requires u in UpdateEffect(botId, pending, upd, gw).pending
    ensures var e := UpdateEffect(botId, pending, upd, gw);
      || LastPerms(e.calls, e.pending[u].chat, u) == Some(MutePermissions)
      || (LastPerms(e.calls, e.pending[u].chat, u) == None && u in pending && e.pending[u] == pending[u])
  {
    var e := UpdateEffect(botId, pending, upd, gw);
    var c := e.pending[u].chat;
    match upd
    case OtherUpdate =>
    case ChatMemberUpdate(m) =>
      var user := m.newChatMember.user;
      if m.from.id != botId && m.newChatMember.status == Member && !user.isBot && u == user.id {
        var je := JoinEffect(pending, m.chat, user.id, gw);
        assert e == je;
        if je.outcome == Completed || c == m.chat {
          var mute := Restrict(m.chat, u, MutePermissions);
          var send := SendCaptcha(m.chat, u, CaptchaOptions);
          if |je.calls| == 2 {
            assert je.calls == [mute] + [send];
            LastPermsAppend([mute], [send], c, u);
            LastPermsNone([send], c, u);
          }
        } else {
          LastPermsNone(e.calls, c, u);
        }
      } else {
        LastPermsNone(e.calls, c, u);
      }
    case CallbackQueryUpdate(q) =>
      LastPermsNone(e.calls, c, u);
  }

  lemma UpdateKeepsInvariant(botId: UserId, t: seq<Action>, pending: Table, upd: Update, gw: Gateway)
    requires Invariant(t, pending)
    ensures var e := UpdateEffect(botId, pending, upd, gw); Invariant(t + e.calls, e.pending)
  {
    var e := UpdateEffect(botId, pending, upd, gw);
    forall u
      ensures Count(t + e.calls, u, VerdictGiven) + (if u in e.pending then 1 else 0) <= Count(t + e.calls, u, CaptchaSent)
    {
      CountAppend(t, e.calls, u, VerdictGiven);
      CountAppend(t, e.calls, u, CaptchaSent);
      StepBalance(botId, pending, upd, gw, u);
    }
    forall u | u in e.pending
      ensures LastPerms(t + e.calls, e.pending[u].chat, u) == Some(MutePermissions)
    {
      LastPermsAppend(t, e.calls, e.pending[u].chat, u);
      StepMutes(botId, pending, upd, gw, u);
    }
  }
}
