/** The message handler of the relay: gate, normalise, log to the inbox,
    assemble the context, generate, record the exchange, reply. The remote
    store is a `Database` object whose two collections the handler appends
    to; the language model is a `generate` oracle; every remote call that can
    raise is decided by a `Faults` value. */
module Relay {
  import opened Wrappers
  import opened PyText
  import opened Gate
  import opened History

  /** The bot's own identity: its user id and its username without `@`. */
  datatype Bot = Bot(id: int, username: string)

  /** The parts of an incoming update the handler looks at. `replyTo` is the
      sender id of the message this one replies to, if any. */
  datatype Message = Message(chatId: int, chatType: string, userId: int, messageId: int,
                             text: Option<string>, entities: seq<Entity>, replyTo: Option<int>)

  /** One record under `inbox_logs`. */
  datatype InboxRecord = InboxRecord(userId: int, chatId: int, messageId: int, text: string)

  /** What the language model call gives: the reply text, or an error. */
  datatype Generation = Generated(text: string) | GenerationFailed

  /** Which of the remote calls raise during one message: the inbox write,
      the history query, the user-turn write, the bot-turn write and the
      delivery of the generated reply. */
  datatype Faults = Faults(inboxWriteFails: bool, historyReadFails: bool,
                           userTurnWriteFails: bool, botTurnWriteFails: bool,
                           deliveryFails: bool)

  const NoFaults: Faults := Faults(false, false, false, false, false)

  /** The handler's visible result: nothing sent, the generated reply, or
      the fixed apology. */
  datatype Outcome = Ignored | Replied(text: string) | RepliedWithApology

  const Apology: string := "Извини, сейчас проблемы с подключением к нейросети. Попробуй позже."

  /** The store's contents: per-chat logs in append order, and the inbox. */
  datatype Store = Store(chats: map<int, seq<StoredTurn>>, inbox: seq<InboxRecord>)

  datatype Handled = Handled(store: Store, outcome: Outcome)

  function LogOf(chats: map<int, seq<StoredTurn>>, chatId: int): seq<StoredTurn>
  {
    if chatId in chats then chats[chatId] else []
  }

  /** Appends `turns` to one chat's log; appending nothing touches nothing. */
  function AppendTurns(chats: map<int, seq<StoredTurn>>, chatId: int, turns: seq<StoredTurn>)
    : (r: map<int, seq<StoredTurn>>)
    ensures LogOf(r, chatId) == LogOf(chats, chatId) + turns
    ensures forall id :: id != chatId ==> LogOf(r, id) == LogOf(chats, id)
  {
    if turns == [] then chats else chats[chatId := LogOf(chats, chatId) + turns]
  }

  /** Two appends to the same chat are one append of both. */
  lemma AppendTurnsTwice(chats: map<int, seq<StoredTurn>>, chatId: int, a: seq<StoredTurn>,
                         b: seq<StoredTurn>)
    ensures AppendTurns(AppendTurns(chats, chatId, a), chatId, b) == AppendTurns(chats, chatId, a + b)
  {
    if a == [] {
      assert a + b == b;
    } else if b == [] {
      assert a + b == a;
    } else {
      var log := LogOf(chats, chatId);
      assert LogOf(AppendTurns(chats, chatId, a), chatId) + b == log + (a + b);
    }
  }

  function UserTurn(text: string): StoredTurn { StoredTurn(Some(UserSender), Some(text)) }

  function BotTurn(text: string): StoredTurn { StoredTurn(Some(BotSender), Some(text)) }

  /** A record as the relay writes it: sender `user` or `bot`, and a text. */
  predicate Recorded(t: StoredTurn)
  {
    (t.sender == Some(UserSender) || t.sender == Some(BotSender)) && t.text.Some?
  }

  predicate WellFormedChats(chats: map<int, seq<StoredTurn>>)
  {
    forall id :: id in chats ==> forall i :: 0 <= i < |chats[id]| ==> Recorded(chats[id][i])
  }

  /** The text forwarded to the model: stripped; outside private chats every
      `@username` is then removed and the result stripped again. */
  function Normalise(chatType: string, text: string, username: string): (r: string)
    ensures IsStripped(r)
    ensures |r| <= |text|
  {
    var t := Strip(text);
    if chatType != PrivateChat && Contains(t, MentionOf(username))
    then Strip(RemoveAll(t, MentionOf(username)))
    else t
  }

  /** In a private chat only surrounding whitespace is dropped. */
  lemma NormalisePrivate(text: string, username: string)
    ensures Normalise(PrivateChat, text, username) == Strip(text)
  {
  }

  /** Outside private chats a text that does not mention the bot is only
      stripped. */
  lemma NormaliseWithoutMention(chatType: string, text: string, username: string)
    requires chatType != PrivateChat && !Contains(Strip(text), MentionOf(username))
    ensures Normalise(chatType, text, username) == Strip(text)
  {
  }

  /** Outside private chats the `in` test before `replace` changes nothing:
      the text forwarded is always the stripped text with every mention
      removed, stripped again. */
  lemma NormaliseRemovesMentions(chatType: string, text: string, username: string)
    requires chatType != PrivateChat
    ensures Normalise(chatType, text, username) == Strip(RemoveAll(Strip(text), MentionOf(username)))
  {
    var t := Strip(text);
    var p := MentionOf(username);
    if !Contains(t, p) {
      NormaliseWithoutMention(chatType, text, username);
      RemoveAllAbsent(t, p);
      StripFixesStripped(t);
    }
  }

  /** When the stripped text mentions the bot outside a private chat, the
      forwarded text is shorter by at least the mention. */
  lemma NormaliseDropsMention(chatType: string, text: string, username: string)
    requires chatType != PrivateChat && Contains(Strip(text), MentionOf(username))
    ensures |Normalise(chatType, text, username)| <= |Strip(text)| - |MentionOf(username)|
  {
    RemoveAllShrinks(Strip(text), MentionOf(username));
  }

  /** Outside private chats a text made of the mention, one space and a
      body without `@` and without surrounding whitespace is forwarded as
      that body. */
  lemma NormaliseLeadingMention(chatType: string, username: string, body: string)
    requires chatType != PrivateChat
    requires body != [] && IsStripped(body) && '@' !in body
    ensures Normalise(chatType, MentionOf(username) + " " + body, username) == body
  {
    var m := MentionOf(username);
    var rest := " " + body;
    var text := m + rest;
    assert text == MentionOf(username) + " " + body;
    LeadingMentionStripped(m, rest);
    StripFixesStripped(text);
    assert Strip(text) == text;
    LeadingMentionRemoved(m, body);
    StripLeadingSpace(body);
    assert Strip(RemoveAll(text, m)) == body;
  }

  /** A text starting with the mention and ending in the stripped body is
      already stripped. */
  lemma LeadingMentionStripped(m: string, rest: string)
    requires m != [] && m[0] == '@' && rest != [] && !IsSpace(rest[|rest| - 1])
    ensures IsStripped(m + rest)
  {
    assert (m + rest)[|m + rest| - 1] == rest[|rest| - 1];
  }

  /** The mention at the front is removed, and the rest, a space and a body
      without `@`, is kept. */
  lemma LeadingMentionRemoved(m: string, body: string)
    requires m != [] && m[0] == '@' && '@' !in body
    ensures Contains(m + " " + body, m) && RemoveAll(m + " " + body, m) == " " + body
  {
    var rest := " " + body;
    var text := m + rest;
    assert m + " " + body == text;
    assert text[..|m|] == m;
    assert OccursAt(text, m, 0);
    assert text[|m|..] == rest;
    assert '@' !in rest by {
      forall k | 0 <= k < |rest| ensures rest[k] != '@' {
        if k > 0 {
          assert rest[k] == body[k - 1];
        }
      }
    }
    FirstCharAbsent(rest, m);
    RemoveAllAbsent(rest, m);
  }

  /** One leading space is dropped from a stripped body. */
  lemma StripLeadingSpace(body: string)
    requires IsStripped(body)
    ensures Strip(" " + body) == body
  {
    assert (" " + body)[1..] == body;
    StripFixesStripped(body);
  }

  /** The group scenario: `@bot What's up` is forwarded as `What's up`. */
  lemma NormaliseGroupScenario(chatType: string, text: string, username: string)
    requires chatType == GroupChat && text == "@bot What's up" && username == "bot"
    ensures Normalise(chatType, text, username) == "What's up"
  {
    var body := "What's up";
    assert text == MentionOf(username) + " " + body;
    assert '@' !in body;
    NormaliseLeadingMention(chatType, username, body);
  }

  /** Outside private chats every mention of the bot is removed, not only the
      first: a text with two mentions is forwarded as the two stretches
      between them, joined and stripped. */
  lemma NormaliseEveryMention(chatType: string, username: string, x: string, y: string)
    requires chatType != PrivateChat && '@' !in username
    requires '@' !in x && '@' !in y && y != [] && !IsSpace(y[|y| - 1])
    ensures Normalise(chatType, MentionOf(username) + x + MentionOf(username) + y, username)
            == Strip(x + y)
  {
    var m := MentionOf(username);
    var text := m + x + m + y;
    assert m[0] !in m[1..] by {
      assert m[1..] == username;
    }
    LeadingMentionStripped(m, x + m + y);
    assert text == m + (x + m + y);
    StripFixesStripped(text);
    MentionAtStart(m, x + m + y);
    RemoveBothMentions(m, x, y);
  }

  lemma MentionAtStart(m: string, rest: string)
    ensures Contains(m + rest, m)
  {
    assert (m + rest)[0..0 + |m|] == m;
    assert OccursAt(m + rest, m, 0);
  }

  /** Both occurrences of the mention around `x` are removed. */
  lemma RemoveBothMentions(m: string, x: string, y: string)
    requires m != [] && m[0] !in m[1..] && m[0] !in x && m[0] !in y
    ensures RemoveAll(m + x + m + y, m) == x + y
  {
    FirstCharAbsent([], m);
    FirstCharAbsent(x, m);
    FirstCharAbsent(y, m);
    calc {
      RemoveAll(m + x + m + y, m);
      { assert m + x + m + y == [] + m + (x + m + y); }
      RemoveAll([] + m + (x + m + y), m);
      { RemoveAllAfterClean([], m, x + m + y); }
      [] + RemoveAll(x + m + y, m);
      { assert [] + RemoveAll(x + m + y, m) == RemoveAll(x + m + y, m); }
      RemoveAll(x + m + y, m);
      { RemoveAllAfterClean(x, m, y); }
      x + RemoveAll(y, m);
      { RemoveAllAbsent(y, m); }
      x + y;
    }
  }

  /** Two mentions in a group: `@bot a @bot b` is forwarded as `a  b`. */
  lemma NormaliseTwoMentionsScenario(chatType: string, text: string, username: string)
    requires chatType == GroupChat && text == "@bot a @bot b" && username == "bot"
    ensures Normalise(chatType, text, username) == "a  b"
  {
    var x, y := " a ", " b";
    TwoMentionsShape(text, username, x, y);
    NormaliseEveryMention(chatType, username, x, y);
    TwoMentionsRest(x, y);
  }

  lemma TwoMentionsShape(text: string, username: string, x: string, y: string)
    requires text == "@bot a @bot b" && username == "bot" && x == " a " && y == " b"
    ensures text == MentionOf(username) + x + MentionOf(username) + y
    ensures '@' !in username && '@' !in x && '@' !in y && y != [] && !IsSpace(y[|y| - 1])
  {
    assert MentionOf(username) == "@bot";
    assert y[|y| - 1] == 'b';
  }

  lemma TwoMentionsRest(x: string, y: string)
    requires x == " a " && y == " b"
    ensures Strip(x + y) == "a  b"
  {
    var body := "a  b";
    assert x + y == " " + body;
    StripLeadingSpace(body);
  }

  /** The message is answered at all: it has non-empty text and passes the
      gate. */
  predicate Accepts(update: Option<Message>, bot: Bot)
  {
    update.Some? && update.value.text.Some? && update.value.text.value != ""
    && Respond(update.value.chatType, update.value.text.value, update.value.entities,
               update.value.replyTo, bot.id, bot.username)
  }

  /** What the history query returns: nothing without a store or when the
      query raises, otherwise the chat's last ten turns. */
  function Snapshot(st: Store, connected: bool, faults: Faults, chatId: int)
    : Option<seq<StoredTurn>>
  {
    if connected && !faults.historyReadFails
    then Some(LastTurns(LogOf(st.chats, chatId), HistoryLimit))
    else None
  }

  /** The turns that reach the store after a successful generation: both,
      only the user's when the second write raises, none when the first does
      (the two writes share one `try`), none without a store. */
  function SavedTurns(connected: bool, faults: Faults, userText: string, botText: string)
    : seq<StoredTurn>
  {
    if !connected || faults.userTurnWriteFails then []
    else if faults.botTurnWriteFails then [UserTurn(userText)]
    else [UserTurn(userText), BotTurn(botText)]
  }

  /** The inbox after the inbox write: one more record, unless there is no
      store or the write raises. */
  function InboxAfter(inbox: seq<InboxRecord>, connected: bool, faults: Faults, record: InboxRecord)
    : seq<InboxRecord>
  {
    if connected && !faults.inboxWriteFails then inbox + [record] else inbox
  }

  /** What follows the model call: on failure the apology and no turn; on
      success the saved turns and the reply (the apology when delivering the
      reply raises, since that error reaches the same handler). */
  function Conclude(chats: map<int, seq<StoredTurn>>, inbox: seq<InboxRecord>, connected: bool,
                    faults: Faults, chatId: int, text: string, g: Generation): Handled
  {
    match g
    case GenerationFailed => Handled(Store(chats, inbox), RepliedWithApology)
    case Generated(reply) =>
      Handled(Store(AppendTurns(chats, chatId, SavedTurns(connected, faults, text, reply)), inbox),
              if faults.deliveryFails then RepliedWithApology else Replied(reply))
  }

  /** The handler as one state transition: the reference the imperative
      handler is proved against. */
  function Step(st: Store, connected: bool, update: Option<Message>, bot: Bot, faults: Faults,
                generate: (seq<Content>, string) -> Generation): (r: Handled)
    ensures st.inbox <= r.store.inbox && |r.store.inbox| <= |st.inbox| + 1
    ensures forall id :: LogOf(st.chats, id) <= LogOf(r.store.chats, id)
    ensures r.outcome == Ignored ==> r.store == st
  {
    if !Accepts(update, bot) then Handled(st, Ignored)
    else
      var m := update.value;
      var text := Normalise(m.chatType, m.text.value, bot.username);
      var inbox := InboxAfter(st.inbox, connected, faults, InboxRecord(m.userId, m.chatId, m.messageId, text));
      var g := generate(Context(Snapshot(st, connected, faults, m.chatId)), text);
      Conclude(st.chats, inbox, connected, faults, m.chatId, text, g)
  }

  /** `Step` on an accepted message, in terms of its parts. */
  lemma StepAccepted(st: Store, connected: bool, update: Option<Message>, bot: Bot, faults: Faults,
                     generate: (seq<Content>, string) -> Generation)
    requires Accepts(update, bot)
    ensures var m := update.value;
            var text := Normalise(m.chatType, m.text.value, bot.username);
            Step(st, connected, update, bot, faults, generate)
              == Conclude(st.chats,
                          InboxAfter(st.inbox, connected, faults, InboxRecord(m.userId, m.chatId, m.messageId, text)),
                          connected, faults, m.chatId, text,
                          generate(Context(Snapshot(st, connected, faults, m.chatId)), text))
  {
  }

  /** Nothing is sent and nothing stored exactly when the message has no
      text or the gate rejects it. */
  lemma IgnoredIffNotAccepted(st: Store, connected: bool, update: Option<Message>, bot: Bot,
                              faults: Faults, generate: (seq<Content>, string) -> Generation)
    ensures Step(st, connected, update, bot, faults, generate).outcome == Ignored
            <==> !Accepts(update, bot)
    ensures !Accepts(update, bot) ==> Step(st, connected, update, bot, faults, generate).store == st
  {
  }

  /** A message that passes the gate leaves exactly one inbox record, carrying
      the user, chat and message ids and the forwarded text, unless the store
      is missing or the write raises; and that write failing changes nothing
      else. */
  lemma InboxRecordsOnce(st: Store, connected: bool, update: Option<Message>, bot: Bot,
                         faults: Faults, generate: (seq<Content>, string) -> Generation)
    requires Accepts(update, bot)
    ensures var m := update.value;
            var r := Step(st, connected, update, bot, faults, generate);
            r.store.inbox == st.inbox + (if connected && !faults.inboxWriteFails
              then [InboxRecord(m.userId, m.chatId, m.messageId,
                                Normalise(m.chatType, m.text.value, bot.username))]
              else [])
    ensures var ok := Step(st, connected, update, bot, faults.(inboxWriteFails := false), generate);
            var failed := Step(st, connected, update, bot, faults.(inboxWriteFails := true), generate);
            ok.store.chats == failed.store.chats && ok.outcome == failed.outcome
            && failed.store.inbox == st.inbox
  {
    var m := update.value;
    var text := Normalise(m.chatType, m.text.value, bot.username);
    var record := InboxRecord(m.userId, m.chatId, m.messageId, text);
    var g := generate(Context(Snapshot(st, connected, faults, m.chatId)), text);
    StepAccepted(st, connected, update, bot, faults, generate);
    var okFaults := faults.(inboxWriteFails := false);
    var failedFaults := faults.(inboxWriteFails := true);
    assert Snapshot(st, connected, okFaults, m.chatId) == Snapshot(st, connected, faults, m.chatId);
    assert Snapshot(st, connected, failedFaults, m.chatId) == Snapshot(st, connected, faults, m.chatId);
    assert SavedTurns(connected, okFaults, text, "") == SavedTurns(connected, failedFaults, text, "");
    StepAccepted(st, connected, update, bot, okFaults, generate);
    StepAccepted(st, connected, update, bot, failedFaults, generate);
    if g.Generated? {
      assert SavedTurns(connected, okFaults, text, g.text) == SavedTurns(connected, failedFaults, text, g.text);
    }
  }

  /** The model is asked with the assembled context and the forwarded text;
      on success that chat's log gains its saved turns, every other chat's
      log is unchanged, and the reply is the generated text unless its
      delivery raises. */
  lemma SuccessRecordsExchange(st: Store, connected: bool, update: Option<Message>, bot: Bot,
                               faults: Faults, generate: (seq<Content>, string) -> Generation)
    requires Accepts(update, bot)
    ensures var m := update.value;
            var text := Normalise(m.chatType, m.text.value, bot.username);
            var g := generate(Context(Snapshot(st, connected, faults, m.chatId)), text);
            var r := Step(st, connected, update, bot, faults, generate);
            g.Generated? ==>
              LogOf(r.store.chats, m.chatId)
                == LogOf(st.chats, m.chatId) + SavedTurns(connected, faults, text, g.text)
              && (forall id :: id != m.chatId ==> LogOf(r.store.chats, id) == LogOf(st.chats, id))
              && r.outcome == (if faults.deliveryFails then RepliedWithApology else Replied(g.text))
  {
    var m := update.value;
    var text := Normalise(m.chatType, m.text.value, bot.username);
    var g := generate(Context(Snapshot(st, connected, faults, m.chatId)), text);
    StepAccepted(st, connected, update, bot, faults, generate);
  }

  /** With a store and no write faults, a successful exchange appends exactly
      two turns: the user's forwarded text, then the bot's reply. */
  lemma SuccessAppendsUserThenBot(st: Store, update: Option<Message>, bot: Bot,
                                  generate: (seq<Content>, string) -> Generation)
    requires Accepts(update, bot)
    ensures var m := update.value;
            var text := Normalise(m.chatType, m.text.value, bot.username);
            var g := generate(Context(Snapshot(st, true, NoFaults, m.chatId)), text);
            var r := Step(st, true, update, bot, NoFaults, generate);
            g.Generated? ==>
              LogOf(r.store.chats, m.chatId)
                == LogOf(st.chats, m.chatId) + [UserTurn(text), BotTurn(g.text)]
              && r.outcome == Replied(g.text)
  {
    SuccessRecordsExchange(st, true, update, bot, NoFaults, generate);
  }

  /** A failed generation stores no turn and answers with the apology. */
  lemma FailureRecordsNothing(st: Store, connected: bool, update: Option<Message>, bot: Bot,
                              faults: Faults, generate: (seq<Content>, string) -> Generation)
    requires Accepts(update, bot)
    ensures var m := update.value;
            var text := Normalise(m.chatType, m.text.value, bot.username);
            var g := generate(Context(Snapshot(st, connected, faults, m.chatId)), text);
            var r := Step(st, connected, update, bot, faults, generate);
            g.GenerationFailed? ==> r.store.chats == st.chats && r.outcome == RepliedWithApology
  {
    var m := update.value;
    var text := Normalise(m.chatType, m.text.value, bot.username);
    var g := generate(Context(Snapshot(st, connected, faults, m.chatId)), text);
    StepAccepted(st, connected, update, bot, faults, generate);
  }

  lemma {:induction false} AppendKeepsWellFormed(chats: map<int, seq<StoredTurn>>, chatId: int,
                                                 turns: seq<StoredTurn>)
    requires WellFormedChats(chats)
    requires forall i :: 0 <= i < |turns| ==> Recorded(turns[i])
    ensures WellFormedChats(AppendTurns(chats, chatId, turns))
  {
    var r := AppendTurns(chats, chatId, turns);
    forall id | id in r
      ensures forall i :: 0 <= i < |r[id]| ==> Recorded(r[id][i])
    {
      assert r[id] == LogOf(r, id);
      if id == chatId {
        assert r[id] == LogOf(chats, id) + turns;
      } else {
        assert r[id] == LogOf(chats, id);
      }
    }
  }

  /** The handler writes only well-formed records, so a store holding only
      such records keeps holding only such records. */
  lemma StepKeepsChatsWellFormed(st: Store, connected: bool, update: Option<Message>, bot: Bot,
                                 faults: Faults, generate: (seq<Content>, string) -> Generation)
    requires WellFormedChats(st.chats)
    ensures WellFormedChats(Step(st, connected, update, bot, faults, generate).store.chats)
  {
    if Accepts(update, bot) {
      var m := update.value;
      var text := Normalise(m.chatType, m.text.value, bot.username);
      var g := generate(Context(Snapshot(st, connected, faults, m.chatId)), text);
      StepAccepted(st, connected, update, bot, faults, generate);
      if g.Generated? {
        var saved := SavedTurns(connected, faults, text, g.text);
        AppendKeepsWellFormed(st.chats, m.chatId, saved);
      }
    }
  }

  /** Recording and reading back agree: after an exchange that is fully
      saved, the next context of that chat ends with the user's text as a
      `User` entry followed by the reply as a `Model` entry. */
  lemma RecordedExchangeEndsNextContext(log: seq<StoredTurn>, text: string, reply: string)
    requires forall i :: 0 <= i < |log| ==> Recorded(log[i])
    ensures var c := Context(Some(LastTurns(log + [UserTurn(text), BotTurn(reply)], HistoryLimit)));
            |c| >= 2 && c[|c| - 2] == Content(User, text) && c[|c| - 1] == Content(Model, reply)
  {
    var log' := log + [UserTurn(text), BotTurn(reply)];
    forall i | 0 <= i < |log'| ensures Readable(log'[i]) {
      if i < |log| { assert log'[i] == log[i]; }
    }
    ContextIsLatestTurns(log');
    var c := Context(Some(LastTurns(log', HistoryLimit)));
    var n := |c|;
    assert n >= 2;
    assert log'[|log'| - n + (n - 2)] == UserTurn(text);
    assert log'[|log'| - n + (n - 1)] == BotTurn(reply);
    assert c[n - 2].text == text && c[n - 2].role == User;
    assert c[n - 1].text == reply && c[n - 1].role == Model;
  }

  /** The private scenario: `Hello` with an empty store. The model is asked
      with an empty context and `Hello`; on success the reply is its text and
      the chat's log holds the two turns. */
  lemma PrivateHelloScenario(generate: (seq<Content>, string) -> Generation, bot: Bot)
    ensures var update := Some(Message(1, PrivateChat, 2, 3, Some("Hello"), [], None));
            var r := Step(Store(map[], []), true, update, bot, NoFaults, generate);
            generate([], "Hello").Generated? ==>
              r.outcome == Replied(generate([], "Hello").text)
              && LogOf(r.store.chats, 1) == [UserTurn("Hello"), BotTurn(generate([], "Hello").text)]
              && r.store.inbox == [InboxRecord(2, 1, 3, "Hello")]
  {
    var update := Some(Message(1, PrivateChat, 2, 3, Some("Hello"), [], None));
    var st := Store(map[], []);
    StripFixesStripped("Hello");
    assert Normalise(PrivateChat, "Hello", bot.username) == "Hello";
    assert Accepts(update, bot);
    assert Snapshot(st, true, NoFaults, 1) == Some([]);
    assert Context(Some([])) == [];
    StepAccepted(st, true, update, bot, NoFaults, generate);
  }

  /** The unaddressed group scenario: a plain group message leaves no inbox
      record, no turn and no reply. */
  lemma UnaddressedGroupScenario(st: Store, connected: bool, bot: Bot, faults: Faults,
                                 generate: (seq<Content>, string) -> Generation)
    ensures var update := Some(Message(1, GroupChat, 2, 3, Some("hello all"), [], None));
            Step(st, connected, update, bot, faults, generate) == Handled(st, Ignored)
  {
  }

  /** The remote store: `connected` is false when it could not be set up, and
      then every persistence step is skipped. */
  class Database {
    const connected: bool
    var chats: map<int, seq<StoredTurn>>
    var inbox: seq<InboxRecord>

    function State(): Store
      reads this
    {
      Store(chats, inbox)
    }

    constructor (connected: bool, chats: map<int, seq<StoredTurn>>, inbox: seq<InboxRecord>)
      ensures this.connected == connected && State() == Store(chats, inbox)
    {
      this.connected := connected;
      this.chats := chats;
      this.inbox := inbox;
    }

    /** `inbox_logs.push().set(record)`. */
    method PushInbox(record: InboxRecord)
      modifies this
      ensures inbox == old(inbox) + [record] && chats == old(chats)
    {
      inbox := inbox + [record];
    }

    /** `chats/<chat id>.push().set(turn)`: one more turn at the end of that
        chat's log. */
    method PushTurn(chatId: int, turn: StoredTurn)
      modifies this
      ensures chats == AppendTurns(old(chats), chatId, [turn]) && inbox == old(inbox)
    {
      chats := chats[chatId := LogOf(chats, chatId) + [turn]];
    }
  }

  /** The normalisation statements of the handler: strip, then outside
      private chats drop every mention of the bot and strip again. */
  method NormaliseText(chatType: string, text: string, username: string) returns (messageText: string)
    ensures messageText == Normalise(chatType, text, username)
  {
    messageText := Strip(text);
    if chatType != PrivateChat && Contains(messageText, MentionOf(username)) {
      messageText := Strip(RemoveAll(messageText, MentionOf(username)));
    }
  }

  /** The inbox write: skipped without a store, and a write that raises
      leaves everything as it was. */
  method LogInbound(db: Database, record: InboxRecord, writeFails: bool)
    modifies db
    ensures db.chats == old(db.chats)
    ensures db.inbox == old(db.inbox) + (if db.connected && !writeFails then [record] else [])
  {
    if db.connected && !writeFails {
      db.PushInbox(record);
    }
  }

  /** The turn recorder: the user turn, then the bot turn, as two writes in
      one `try`; skipped without a store. */
  method RecordTurns(db: Database, chatId: int, userText: string, botText: string, faults: Faults)
    modifies db
    ensures db.chats == AppendTurns(old(db.chats), chatId, SavedTurns(db.connected, faults, userText, botText))
    ensures db.inbox == old(db.inbox)
  {
    ghost var before := db.chats;
    if db.connected && !faults.userTurnWriteFails {
      db.PushTurn(chatId, UserTurn(userText));
      if !faults.botTurnWriteFails {
        db.PushTurn(chatId, BotTurn(botText));
        AppendTurnsTwice(before, chatId, [UserTurn(userText)], [BotTurn(botText)]);
        assert [UserTurn(userText)] + [BotTurn(botText)] == [UserTurn(userText), BotTurn(botText)];
      }
    }
  }

  /** `handle_message`, step by step, proved to make the transition `Step`
      describes. */
  method HandleMessage(db: Database, update: Option<Message>, bot: Bot, faults: Faults,
                       generate: (seq<Content>, string) -> Generation) returns (outcome: Outcome)
    modifies db
    ensures Handled(db.State(), outcome)
            == Step(old(db.State()), db.connected, update, bot, faults, generate)
    ensures old(WellFormedChats(db.chats)) ==> WellFormedChats(db.chats)
  {
    ghost var st := db.State();
    if update.None? || update.value.text.None? || update.value.text.value == "" {
      return Ignored;
    }
    var m := update.value;
    var respond := ShouldRespond(m.chatType, m.text.value, m.entities, m.replyTo, bot.id, bot.username);
    if !respond {
      return Ignored;
    }

    var messageText := NormaliseText(m.chatType, m.text.value, bot.username);

    LogInbound(db, InboxRecord(m.userId, m.chatId, m.messageId, messageText), faults.inboxWriteFails);

    var snapshot := None;
    if db.connected && !faults.historyReadFails {
      snapshot := Some(LastTurns(LogOf(db.chats, m.chatId), HistoryLimit));
    }
    assert snapshot == Snapshot(st, db.connected, faults, m.chatId);
    var history := LoadHistory(snapshot);

    var generation := generate(history, messageText);
    StepAccepted(st, db.connected, update, bot, faults, generate);
    if generation.GenerationFailed? {
      return RepliedWithApology;
    }
    var replyText := generation.text;
    RecordTurns(db, m.chatId, messageText, replyText, faults);
    outcome := if faults.deliveryFails then RepliedWithApology else Replied(replyText);
    if WellFormedChats(st.chats) {
      StepKeepsChatsWellFormed(st, db.connected, update, bot, faults, generate);
    }
  }
}
