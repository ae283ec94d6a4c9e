/** The responder gate: whether the bot answers an incoming message, given
    the chat type, the message's entities, its text and its reply target. */
module Gate {
  import opened Wrappers
  import opened PyText

  /** A Telegram message entity: its type (`"mention"`, `"url"`, ...) and the
      span of the text it covers. */
  datatype Entity = Entity(kind: string, offset: nat, length: nat)

  const PrivateChat: string := "private"
  const GroupChat: string := "group"
  const SupergroupChat: string := "supergroup"
  const MentionKind: string := "mention"

  /** How the bot is addressed by name in a group: `"@" + username`. */
  function MentionOf(username: string): (r: string)
    ensures |r| == |username| + 1 && r[0] == '@' && r[1..] == username
  {
    "@" + username
  }

  /** The entity is a mention whose covered text is exactly `@username`. */
  predicate NamesBot(text: string, e: Entity, username: string)
  {
    e.kind == MentionKind && Slice(text, e.offset, e.offset + e.length) == MentionOf(username)
  }

  predicate MentionsBot(text: string, entities: seq<Entity>, username: string)
  {
    exists i :: 0 <= i < |entities| && NamesBot(text, entities[i], username)
  }

  /** The gate's meaning: a private chat always passes; a group or supergroup
      passes when the bot is mentioned by name or the message replies to one
      of the bot's own messages (`replyTo` is the sender id of the message
      replied to); every other chat type fails. */
  predicate Respond(chatType: string, text: string, entities: seq<Entity>, replyTo: Option<int>,
                    botId: int, username: string)
    ensures Respond(chatType, text, entities, replyTo, botId, username)
            ==> chatType == PrivateChat || chatType == GroupChat || chatType == SupergroupChat
    ensures (chatType == GroupChat || chatType == SupergroupChat) && replyTo == Some(botId)
            ==> Respond(chatType, text, entities, replyTo, botId, username)
  {
    chatType == PrivateChat
    || ((chatType == GroupChat || chatType == SupergroupChat)
        && (MentionsBot(text, entities, username) || replyTo == Some(botId)))
  }

  /** `should_respond`: private chats pass, groups and supergroups pass when
      the bot is mentioned or replied to, everything else fails. */
  method ShouldRespond(chatType: string, text: string, entities: seq<Entity>, replyTo: Option<int>,
                       botId: int, username: string) returns (r: bool)
    ensures r == Respond(chatType, text, entities, replyTo, botId, username)
  {
    if chatType == PrivateChat {
      return true;
    }
    if chatType != GroupChat && chatType != SupergroupChat {
      OtherChatTypesNeverRespond(chatType, text, entities, replyTo, botId, username);
      return false;
    }
    GroupRespondsIffAddressed(chatType, text, entities, replyTo, botId, username);
    var mentioned := MentionScan(text, entities, username);
    if mentioned {
      return true;
    }
    return replyTo.Some? && replyTo.value == botId;
  }

  /** The early-return loop of `should_respond` over the entities: true at
      the first mention entity whose text is `@username`. */
  method MentionScan(text: string, entities: seq<Entity>, username: string) returns (found: bool)
    ensures found == MentionsBot(text, entities, username)
  {
    var i := 0;
    while i < |entities|
      invariant 0 <= i <= |entities|
      invariant forall k :: 0 <= k < i ==> !NamesBot(text, entities[k], username)
    {
      var entity := entities[i];
      if entity.kind == MentionKind {
        var mention := Slice(text, entity.offset, entity.offset + entity.length);
        if mention == MentionOf(username) {
          return true;
        }
      }
      i := i + 1;
    }
    return false;
  }

  /** A private chat passes whatever the entities, text or reply target. */
  lemma PrivateAlwaysResponds(text: string, entities: seq<Entity>, replyTo: Option<int>,
                              botId: int, username: string)
    ensures Respond(PrivateChat, text, entities, replyTo, botId, username)
  {
  }

  /** A chat type other than private, group or supergroup (a channel, say)
      never passes. */
  lemma OtherChatTypesNeverRespond(chatType: string, text: string, entities: seq<Entity>,
                                   replyTo: Option<int>, botId: int, username: string)
    requires chatType != PrivateChat && chatType != GroupChat && chatType != SupergroupChat
    ensures !Respond(chatType, text, entities, replyTo, botId, username)
  {
  }

  /** In a group or supergroup, a message that neither names the bot in a
      mention entity nor replies to the bot is not answered; and one that
      does either is. */
  lemma GroupRespondsIffAddressed(chatType: string, text: string, entities: seq<Entity>,
                                  replyTo: Option<int>, botId: int, username: string)
    requires chatType == GroupChat || chatType == SupergroupChat
    ensures Respond(chatType, text, entities, replyTo, botId, username)
        <==> (exists i :: 0 <= i < |entities| && NamesBot(text, entities[i], username))
             || replyTo == Some(botId)
  {
  }

  /** A mention of a longer name that starts with the bot's does not pass:
      with username `bot`, the mention `@bot_helper` is not `@bot`. */
  lemma OtherNameDoesNotPass()
    ensures !Respond(GroupChat, "@bot_helper hi", [Entity(MentionKind, 0, 11)], None, 7, "bot")
  {
    var e := Entity(MentionKind, 0, 11);
    assert Slice("@bot_helper hi", 0, 11) == "@bot_helper";
    assert |Slice("@bot_helper hi", 0, 11)| != |MentionOf("bot")|;
    assert !NamesBot("@bot_helper hi", e, "bot");
    assert [e][0] == e;
  }

  /** The group scenario: `@bot What's up` with a mention entity over its
      first four characters passes the gate. */
  lemma MentionedInGroupPasses()
    ensures Respond(GroupChat, "@bot What's up", [Entity(MentionKind, 0, 4)], None, 7, "bot")
  {
    var e := Entity(MentionKind, 0, 4);
    assert Slice("@bot What's up", 0, 4) == "@bot";
    assert NamesBot("@bot What's up", [e][0], "bot");
  }
}
