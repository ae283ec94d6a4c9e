# A verified model of the HK AI Telegram relay's message handler

The relay (`main.py`) receives Telegram messages, forwards them to a Gemini
language model and stores the conversation in a Firebase Realtime Database.
This project models the part of `main.py` that decides and records things
for one incoming message:

- the **responder gate** `should_respond`: private chats always pass; groups
  and supergroups pass when a `"mention"` entity covers exactly
  `@<bot username>` or the message replies to the bot; other chat types fail;
- the **normalisation** of the text: `strip()`, and outside private chats
  `replace("@<bot username>", "")` followed by another `strip()`;
- the **inbox log**: one record under `inbox_logs` per answered message;
- the **context assembly**: the chat's last ten stored turns, mapped to
  `user` / `model` roles;
- the **generation call** and the **turn recorder**: on success the user's
  text and the reply are appended to `chats/<chat id>`, and the reply is
  sent; on failure the fixed apology is sent instead.

Files:

- `wrappers.dfy` — `Option`.
- `pytext.dfy` — module `PyText`: Python's `str.strip()` (with Python's
  whitespace set), `p in s`, `s.replace(p, "")` and clamped slicing.
- `gate.dfy` — module `Gate`: `Respond`, the meaning of the gate as an
  `exists` over the entities, and `ShouldRespond` with its early-return
  loop `MentionScan`, proved equal to it.
- `history.dfy` — module `History`: stored turns, `Context` (the meaning of
  the history loop) and `LoadHistory`, the loop itself, proved equal to it.
- `relay.dfy` — module `Relay`: `Normalise`, the pure transition `Step` of
  the whole handler with its properties, the `Database` class (the store:
  per-chat logs and the inbox, both append-only), and the imperative
  `HandleMessage`, proved to make exactly the transition `Step` describes.

External services are parameters. The store is a `Database` object whose
`connected` flag is false when Firebase could not be initialised
(`firebase_ref` is `None`). Each remote call that can raise has a flag in
`Faults`. The model is a `generate` function from (context, text) to
`Generated(text)` or `GenerationFailed`. The store keeps each chat's turns in
append order, and that order stands in for the server timestamps the query
sorts by.

Two behaviours of the code that are easy to miss:

- **A malformed stored record.** The history query and the loop over its
  result share one `try` (main.py:116-124). A record missing `sender` or
  `text` raises `KeyError` in the middle of the loop, and `history` keeps the
  entries appended before it. `History.Context` models exactly that: the
  readable records before the first unreadable one.
- **A failed reply delivery.** Sending the generated reply happens inside the
  same `try` as the Gemini call (main.py:127-153). If that send raises, the
  `except` at main.py:155-157 sends the apology, and the two turns have
  already been saved. `Faults.deliveryFails` models this.

## Model

| member | source | states |
|---|---|---|
| Gate.ShouldRespond | main.py:53-69 | the gate answers true exactly when its meaning `Respond` holds: private chat, or group/supergroup with a mention entity whose slice equals `@username` or a reply to the bot's id |
| Gate.MentionScan | main.py:60-65 | the early-return scan over the entities finds a mention exactly when some mention entity's slice of the text equals `@username` |
| Gate.Respond | main.py:53-69 | the gate's meaning: only a private, group or supergroup chat can pass, and in a group or supergroup a reply to the bot's id always passes |
| Gate.PrivateAlwaysResponds | main.py:55-56 | a private chat passes whatever the entities, text and reply target |
| Gate.OtherChatTypesNeverRespond | main.py:58-69 | a chat type other than private, group or supergroup never passes |
| Gate.GroupRespondsIffAddressed | main.py:58-68 | in a group or supergroup the gate passes if and only if some mention entity names the bot or the message replies to the bot |
| Gate.OtherNameDoesNotPass | main.py:62-64 | a mention of `@bot_helper` does not pass for username `bot`: the slice must equal `@bot` exactly |
| Gate.MentionedInGroupPasses | main.py:60-65 | `@bot What's up` with a mention entity over `@bot` passes in a group |
| Gate.MentionOf | main.py:64 | the name the gate and the normaliser look for is `@` followed by the username |
| PyText.Slice | main.py:63 | `text[offset:offset+length]` clamps both bounds to the length and is empty when the offset is past the end |
| PyText.StripStart | main.py:90 | the result is a suffix of the input, everything dropped is whitespace, and it does not start with whitespace |
| PyText.StripEnd | main.py:90 | the result is a prefix of the input, everything dropped is whitespace, and it does not end with whitespace |
| PyText.Strip | main.py:90 | the result has no whitespace at either end and is no longer than the input |
| PyText.StripDropsOnlySpace | main.py:90 | the input is whitespace, then the stripped text, then whitespace |
| PyText.StripFixesStripped | main.py:95 | a text without surrounding whitespace is unchanged by `strip()` |
| PyText.StripIdempotent | main.py:95 | stripping twice is stripping once |
| PyText.Contains | main.py:94 | `p in s`: some index holds a copy of `p`, which needs `p` to be no longer than `s` |
| PyText.RemoveAll | main.py:95 | `s.replace(p, "")` as a left-to-right scan that deletes each occurrence it meets; the result is never longer than the input |
| PyText.RemoveAllAbsent | main.py:94-95 | without an occurrence of the mention, `replace` returns the text unchanged |
| PyText.RemoveAllShrinks | main.py:94-95 | with an occurrence, `replace` removes at least one whole copy of the mention |
| PyText.RemoveAllUnchangedIff | main.py:94-95 | `replace` leaves the text unchanged if and only if the mention does not occur in it |
| PyText.RemoveAllAfterClean | main.py:95 | every occurrence is removed, not only the first: after a stretch without the mention, an occurrence is deleted and the scan goes on with the rest (for a pattern that does not repeat its first character, as `@username` does not) |
| PyText.RemoveAllIsSinglePass | main.py:95 | `replace` makes one left-to-right pass: `@@botbot` becomes `@bot`, which still contains the mention |
| History.LastTurnsIsLatestSuffix | main.py:117 | the query's window is the latest `min(10, n)` turns of the log, in stored order |
| History.RoleOf | main.py:121 | the role is `User` exactly when the sender is `user`; any other sender gives `Model` |
| History.ToContent | main.py:121-122 | an entry carries the stored text verbatim and role `User` exactly for the sender `user` |
| History.ReadablePrefix | main.py:120-122 | the loop reaches every record before the first one missing a key, and stops at that one |
| History.Context | main.py:114-124 | the context is empty without a query result; otherwise it is no longer than the result, and entry `i` comes from readable record `i`, with its text verbatim and role `User` exactly for the sender `user` |
| History.LoadHistory | main.py:113-124 | the history loop builds exactly `Context` of the query result: empty without a result, else the mapped readable records before the first unreadable one |
| History.ContextAtMostLimit | main.py:114-124 | the context has at most ten entries, and none when there is no store or the query raised |
| History.ContextIsLatestTurns | main.py:117-122 | for readable records, the context is exactly the last `min(10, n)` turns in stored order, each with its role and its text |
| History.ContextStopsAtUnreadable | main.py:120-124 | a record missing a key ends the context: nothing from it onwards is used |
| Relay.Normalise | main.py:90-95 | the forwarded text has no whitespace at either end and is no longer than the message text |
| Relay.NormalisePrivate | main.py:90-95 | in a private chat the forwarded text is the stripped text |
| Relay.NormaliseWithoutMention | main.py:94 | outside private chats, a stripped text that does not contain `@username` is forwarded as it is |
| Relay.NormaliseRemovesMentions | main.py:94-95 | outside private chats the forwarded text is always the stripped text with every `@username` removed, stripped again, so the `in` test changes nothing |
| Relay.NormaliseDropsMention | main.py:94-95 | when the bot is mentioned outside a private chat, the forwarded text is shorter than the stripped text by at least the mention |
| Relay.NormaliseLeadingMention | main.py:90-95 | outside private chats, the mention, one space and a body without `@` or surrounding whitespace is forwarded as that body |
| Relay.NormaliseGroupScenario | main.py:93-95 | `@bot What's up` in a group is forwarded as `What's up` |
| Relay.NormaliseEveryMention | main.py:94-95 | outside private chats a text holding two mentions is forwarded as the stretches around them, joined and stripped: both mentions go |
| Relay.NormaliseTwoMentionsScenario | main.py:94-95 | `@bot a @bot b` in a group is forwarded as `a  b` |
| Relay.NormaliseText | main.py:90-95 | the handler's statements compute exactly the forwarded text `Normalise` |
| Relay.AppendTurns | main.py:136-148 | appending adds the turns at the end of that chat's log and leaves every other chat's log unchanged |
| Relay.Step | main.py:79-157 | the handler as one transition: the inbox only grows, by at most one record; every chat log only grows at its end; an ignored message leaves the store unchanged |
| Relay.IgnoredIffNotAccepted | main.py:81-86 | the outcome is `Ignored` if and only if the message has no text or the gate rejects it, and then the store is unchanged |
| Relay.InboxRecordsOnce | main.py:99-111 | an answered message adds exactly one inbox record with the user, chat and message ids and the forwarded text, unless there is no store or the write raises; a failing inbox write changes no chat log and no outcome |
| Relay.SuccessRecordsExchange | main.py:127-153 | the model is asked with the assembled context and the forwarded text; on success only that chat's log changes, gaining the saved turns, and the reply is the generated text unless its delivery raises |
| Relay.SuccessAppendsUserThenBot | main.py:133-153 | with a store and no failing write, success appends exactly the user turn and then the bot turn, and replies with the generated text |
| Relay.FailureRecordsNothing | main.py:155-157 | a failed generation appends no turn and answers with the apology |
| Relay.StepKeepsChatsWellFormed | main.py:136-148 | the handler writes only records with sender `user` or `bot` and a text, so a store of such records stays so |
| Relay.RecordedExchangeEndsNextContext | main.py:136-148 | after a fully saved exchange, the chat's next context ends with the user's text as `User` and the reply as `Model` |
| Relay.PrivateHelloScenario | main.py:79-153 | `Hello` in a private chat with an empty store: the model gets an empty context and `Hello`, the reply is its text, the log holds the two turns and the inbox one record |
| Relay.UnaddressedGroupScenario | main.py:84-86 | a plain group message with no mention and no reply leaves the store unchanged and sends nothing |
| Relay.Database.constructor | main.py:35-46 | a store handle over the chats and inbox records the database already holds, with `connected` false when initialisation failed (`firebase_ref` is `None`) |
| Relay.Database.PushInbox | main.py:102-109 | an inbox push appends one record and leaves the chat logs alone |
| Relay.Database.PushTurn | main.py:136-148 | a chat push appends one turn to that chat's log and leaves the inbox alone |
| Relay.LogInbound | main.py:99-111 | the inbox step appends the record only with a store and a write that does not raise, and never touches the chat logs |
| Relay.RecordTurns | main.py:133-150 | the recorder appends both turns, only the user turn when the second write raises, nothing when the first raises or there is no store |
| Relay.HandleMessage | main.py:79-157 | the handler leaves the store and gives the outcome that `Step` prescribes, and keeps the chat logs well formed |

## Left out

- The Flask `/webhook` endpoint, the `asyncio` dispatch, building and starting the Telegram `Application`, and `main()` (main.py:159-192): process and event-loop plumbing.
- The `/start` greeting and all logging (main.py:72-76): no decision logic.
- Gemini itself (main.py:31-32, 128-130): modelled only as the `generate` parameter, which gives `Generated(text)` or `GenerationFailed`.
- Firebase initialisation and credential parsing (main.py:35-46): modelled only as `Database.connected`.
- The query's `order_by_child('timestamp')` and the server timestamps: append order stands in for timestamp order. Records without a timestamp, which Firebase would sort first, are not modelled.
- Concurrent messages in one chat: the code takes no lock, and interleavings are not a sequential property.
- Telegram counts entity offsets in UTF-16 code units, while Python slices by code points. The model slices the text as a plain sequence with Python's clamping.
- Gate.ShouldRespond: a reply whose `from_user` is missing (a message posted on behalf of a channel) makes the source raise `AttributeError`. The model takes the replied-to sender id as given, so it does not capture that crash.
- Relay.HandleMessage: a failure of the apology send itself escapes the handler in the source. That case is not modelled.
- Relay.HandleMessage: a stored record whose fields have the wrong type (not a string) is not modelled. Only missing fields are.
