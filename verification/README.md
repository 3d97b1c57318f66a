# Captcha bot: a verified model of the pending-captcha tracker

The bot moderates a group chat. When a person joins, the bot mutes them. It then posts a captcha with two
buttons. When the person presses one, the bot deletes the captcha and either restores every
permission or bans them. When someone leaves with a captcha still open, the bot deletes that
captcha. The bot keeps its open captchas in an in-memory table, `_pending`, that maps a user id to
the captcha message (chat and message id). This model covers that table and the three update
handlers that read and change it.

Layout:

- `telegram.dfy` (module `Telegram`) holds the platform's types as values: users, chat-member
  records, callback queries and updates. It also defines the gateway calls the bot makes (`Action`)
  and how the gateway answers one handler run (`Gateway`). A `Gateway` gives the set of calls it
  rejects and the id it gives the posted captcha.
- `handlers.dfy` (module `Handlers`) gives each handler as a function of the table before the run
  and the gateway's answers. The function returns the calls made, in order, the new table and
  whether the run completed or threw. The properties of a single run are its `ensures` clauses.
- `history.dfy` (module `History`) holds the invariant over the whole history of calls, and the
  proof that every run keeps it. There are two parts:
  - At-most-once resolution: for each user, verdicts (bans or full grants) plus an open entry
    never exceed the attempted captcha posts. A post the gateway rejected still counts as attempted,
    so this bounds verdicts by attempts, not by captchas actually posted.
  - A user with an open entry is muted: the last permission set applied to them in the captcha's
    chat is the mute set.
- `bot.dfy` (module `Bot`) is the process. Class `CaptchaBot` has the fields `pending` and
  `trace`. Its handlers make each gateway call and then update the table in place. Each handler is
  proved to do what the `Handlers` function says and to keep the `History` invariant.
- `properties.dfy` (module `Properties`) holds properties across several runs: join then leave, a
  second join, a second answer and an unrecognised answer. It also holds the two permission sets
  and a worked session.

A gateway call that fails throws, and the handler stops at that point. The call still appears in
`trace` because it was attempted. The table is changed only after the awaited calls before that
change have succeeded.

Behaviours of the code worth noting:

- A join for a user who already has an open captcha does not replace the entry. `Dictionary.Add`
  (Program.cs:61) throws after the restriction and the second captcha were already sent. The first
  captcha stays recorded and the second is orphaned (`JoinEffect`, `JoinTwice`).
- An answer that is neither button does not leave the user pending. The entry is removed
  (Program.cs:84) before the payload is inspected. The user therefore stays muted, and no entry is
  left to resolve (`UnknownAnswerLeavesMuted`).
- Permissions are restored with a second restriction that applies the full permission set
  (Program.cs:88-103), not with a separate "grant" call.
- On an answer, the captcha is deleted before the entry is removed (Program.cs:83-84). If the
  delete fails, the entry is kept.

## Model

| member | source | states |
|---|---|---|
| Handlers.JoinEffect | Program.cs:37-61 | A join calls restrict with the mute set, then sends the captcha, in that order. The calls are exactly the restriction alone when it is rejected, and both calls otherwise. The run stops at the first rejected call and throws with that call. The run completes exactly when the user had no entry and both calls succeeded. It then adds exactly `user -> (chat, captcha id)`. Otherwise the table is unchanged. For a user already pending, the run always throws. If both calls succeed, it makes both calls, leaves the table unchanged and throws a duplicate-key error. |
| Handlers.LeaveEffect | Program.cs:63-71 | A leave with no entry does nothing. With an entry, the only call is a delete of the stored chat and message id. The entry is removed only if that delete succeeded, and no other entry changes. A rejected delete throws with that call. |
| Handlers.ChatMemberEffect | Program.cs:31-72 | The bot makes no call and leaves the table unchanged exactly for these updates: updates made by the bot itself, joins of bot accounts, statuses other than member and left, and a leave with no entry. Whenever no call is made, the table is unchanged. Only the subject's entry can change, and the run stops at the first rejected call. |
| Handlers.Verdict | Program.cs:86-108 | Payload "Украины" gives a restriction with the full set in the captcha's chat. Payload "России" gives a ban in that chat. Any other payload, or none, gives no call. |
| Handlers.CallbackEffect | Program.cs:73-109 | A button press is always acknowledged first. If the acknowledgement is rejected, the run throws right there: no other call is made and the table is unchanged. With no entry, the acknowledgement is the only call, the table is unchanged, and the run completes exactly when the acknowledgement was accepted. With an entry, the next call is a delete of the stored message. The entry is removed once the delete succeeds, before the payload is inspected. At most one further call follows, the verdict. An unrecognised payload leaves `[ack, delete]`, no entry, and a completed run. |
| Handlers.UpdateEffect | Program.cs:22-30 | Dispatch by kind of update. Any other kind throws with no call and no change. No run touches the entry of a user other than the update's subject. Every run stops at the first rejected call and throws with that call. |
| History.StepBalance | Program.cs:53-84 | Over one run, a user's attempted captcha posts minus verdicts minus open entry never decreases. |
| History.StepMutes | Program.cs:43-61 | After one run, each pending user was either just muted by this run, or kept their old entry and had no permission set applied. |
| History.UpdateKeepsInvariant | Program.cs:22-109 | Every handler run keeps at-most-once resolution and keeps every pending user muted. |
| Bot.CaptchaBot.constructor | Program.cs:9 | The bot starts with an empty table and no calls, and the invariant holds. |
| Bot.CaptchaBot.Call | Program.cs:75 | An awaited gateway call is appended to the history and reports whether the gateway rejected it. |
| Bot.CaptchaBot.OnUpdate | Program.cs:22-30 | The new history is the old one plus the calls of `UpdateEffect`. The table and the outcome are the ones `UpdateEffect` gives. The invariant is kept. |
| Bot.CaptchaBot.OnChatMember | Program.cs:31-72 | The in-place handler makes the calls of `ChatMemberEffect` and leaves the table and outcome that `ChatMemberEffect` gives. The invariant is kept. |
| Bot.CaptchaBot.OnCallbackQuery | Program.cs:73-109 | The in-place handler makes the calls of `CallbackEffect` and leaves the table and outcome that `CallbackEffect` gives. The invariant is kept. |
| Properties.FullGrantLiftsMute | Program.cs:43-103 | The full set turns on every flag, including each flag the mute set turns off. The mute set turns off exactly the seven content-sending flags. |
| Properties.JoinThenLeave | Program.cs:53-70 | After a completed join, a leave deletes exactly the recorded captcha and restores the table from before the join. |
| Properties.JoinTwice | Program.cs:53-61 | A second join while pending sends a second captcha, then throws on the duplicate key. The first captcha stays recorded. |
| Properties.SecondAnswerOnlyAcknowledges | Program.cs:75-84 | Once an answer has removed the entry, a further answer from the same user is only acknowledged. Across the two answers the user gets at most one verdict. |
| Properties.UnknownAnswerLeavesMuted | Program.cs:83-108 | An unrecognised answer completes and removes the entry. It adds no verdict, and the user stays muted in the captcha's chat. |
| Properties.Session | Program.cs:22-109 | A worked session: user 42 joins chat 100 and gets message 555. Then an accepted answer, a rejected answer, a leave, and a stranger's answer each give the calls and table expected. |

## Left out

- Creating the client, reading the token from the environment, polling options and the endless
  wait (Program.cs:11-20) are process hosting and are not modelled.
- `OnPollingError` (Program.cs:111-114) rethrows transport errors. It is transport handling and is
  not modelled.
- The captcha's text, its Markdown formatting and the keyboard layout are not modelled. A posted
  captcha is modelled as `SendCaptcha(chat, user, [the two button payloads])`.
- Asynchronous scheduling and cancellation tokens are left out. Each handler run is modelled as one
  sequential step, so interleavings of concurrent handlers are not captured.
- The gateway's results are parameters of each run: which calls it rejects and the id of the posted
  captcha. The posted message is taken to be in the chat it was sent to. A rejected call stands for
  any exception the library throws. What the platform does with each call is not modelled.
- Identifiers are 64-bit on the platform and unbounded integers here. They are only compared for
  equality, so nothing depends on their width.
- The `CallbackQuery.Data` and `BotId` values can be null in the library. Here `data` is an
  `Option`, and `BotId` is a known constant.
