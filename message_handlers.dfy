// bot/handlers/message_handler.go: message create, update, delete and bulk delete. Each cached
// message sits under (channel ID, message ID); every handler dispatches the generic event and then
// exactly one of the DM or guild variants, chosen by whether the message has a guild ID.
module MessageHandlers {
  import opened Wrappers
  import opened Snowflakes
  import opened BitFlags
  import opened Channels
  import opened Messages
  import opened GatewayEvents
  import opened Caches
  import opened BotEvents

  /** Ephemeral messages carry neither a guild ID nor a member, so the create handler ignores them. */
  predicate IsEphemeral(m: Message)
  {
    Has(m.flags, [MessageFlagEphemeral])
  }

  /** The cache key of a message. */
  function MessageKey(m: Message): Key
  {
    (m.channelID, m.id)
  }

  /** The message's channel after a create: a cached guild message channel records it as its last message. */
  function WithLastMessage(channels: map<ID, GuildChannel>, channelID: ID, messageID: ID): map<ID, GuildChannel>
  {
    if channelID in channels && channels[channelID].IsGuildMessageChannel() then
      var ch: GuildChannel := ApplyLastMessageIDToChannel(channels[channelID], messageID);
      channels[ch.ID() := ch]
    else channels
  }

  // ---------------------------------------------------------------------------------------
  // The events

  function CreateEvents(m: Message): (r: seq<BotEvent>)
    ensures |r| == 2 && r[0] == MessageCreate(m.id, m, m.channelID, m.guildID)
    ensures r[1].DMMessageCreate? <==> m.guildID.None?
    ensures r[1].GuildMessageCreate? <==> m.guildID.Some?
    ensures m.guildID.Some? ==> r[1] == GuildMessageCreate(m.id, m, m.channelID, m.guildID.value)
    ensures m.guildID.None? ==> r[1] == DMMessageCreate(m.id, m, m.channelID)
  {
    [MessageCreate(m.id, m, m.channelID, m.guildID)]
    + if m.guildID.None? then [DMMessageCreate(m.id, m, m.channelID)]
      else [GuildMessageCreate(m.id, m, m.channelID, m.guildID.value)]
  }

  function UpdateEvents(m: Message, oldMessage: Message): (r: seq<BotEvent>)
    ensures |r| == 2 && r[0] == MessageUpdate(m.id, m, m.channelID, m.guildID, oldMessage)
    ensures r[1].DMMessageUpdate? <==> m.guildID.None?
    ensures r[1].GuildMessageUpdate? <==> m.guildID.Some?
    ensures m.guildID.Some? ==> r[1] == GuildMessageUpdate(m.id, m, m.channelID, m.guildID.value, oldMessage)
    ensures m.guildID.None? ==> r[1] == DMMessageUpdate(m.id, m, m.channelID, oldMessage)
  {
    [MessageUpdate(m.id, m, m.channelID, m.guildID, oldMessage)]
    + if m.guildID.None? then [DMMessageUpdate(m.id, m, m.channelID, oldMessage)]
      else [GuildMessageUpdate(m.id, m, m.channelID, m.guildID.value, oldMessage)]
  }

  /** handleMessageDelete's events: the guild ID comes from the gateway event, not from the removed message. */
  function DeleteEvents(messageID: ID, m: Message, channelID: ID, guildID: Option<ID>): (r: seq<BotEvent>)
    ensures |r| == 2 && r[0] == BotEvent.MessageDelete(messageID, m, channelID, guildID)
    ensures r[1].DMMessageDelete? <==> guildID.None?
    ensures r[1].GuildMessageDelete? <==> guildID.Some?
    ensures guildID.Some? ==> r[1] == GuildMessageDelete(messageID, m, channelID, guildID.value)
    ensures guildID.None? ==> r[1] == DMMessageDelete(messageID, m, channelID)
  {
    [BotEvent.MessageDelete(messageID, m, channelID, guildID)]
    + if guildID.None? then [DMMessageDelete(messageID, m, channelID)]
      else [GuildMessageDelete(messageID, m, channelID, guildID.value)]
  }

  /** The cached message under a key, or the zero message. */
  function Cached(messages: map<Key, Message>, k: Key): Message
  {
    if k in messages then messages[k] else ZeroMessage
  }

  // ---------------------------------------------------------------------------------------
  // The handlers

  /** gatewayHandlerMessageCreate */
  method HandleMessageCreate(c: Caches, m: Message) returns (events: seq<BotEvent>)
    modifies c
    ensures IsEphemeral(m) ==> events == [] && c.State() == old(c.State())
    ensures !IsEphemeral(m) ==>
              && events == CreateEvents(m)
              && c.State() == old(c.State()).(messages := old(c.messages)[MessageKey(m) := m],
                                             channels := WithLastMessage(old(c.channels), m.channelID, m.id))
  {
    if Has(m.flags, [MessageFlagEphemeral]) {
      return [];
    }
    c.AddMessage(m);
    var channel := c.GuildMessageChannel(m.channelID);
    if channel.Some? {
      c.AddChannel(ApplyLastMessageIDToChannel(channel.value, m.id));
    }
    events := [MessageCreate(m.id, m, m.channelID, m.guildID)];
    if m.guildID.None? {
      events := events + [DMMessageCreate(m.id, m, m.channelID)];
    } else {
      events := events + [GuildMessageCreate(m.id, m, m.channelID, m.guildID.value)];
    }
  }

  /** gatewayHandlerMessageUpdate: the previously cached message, or the zero message, is the old one. */
  method HandleMessageUpdate(c: Caches, m: Message) returns (events: seq<BotEvent>)
    modifies c
    ensures events == UpdateEvents(m, Cached(old(c.messages), MessageKey(m)))
    ensures c.State() == old(c.State()).(messages := old(c.messages)[MessageKey(m) := m])
  {
    var oldMessage, _ := c.Message(m.channelID, m.id);
    c.AddMessage(m);
    events := [MessageUpdate(m.id, m, m.channelID, m.guildID, oldMessage)];
    if m.guildID.None? {
      events := events + [DMMessageUpdate(m.id, m, m.channelID, oldMessage)];
    } else {
      events := events + [GuildMessageUpdate(m.id, m, m.channelID, m.guildID.value, oldMessage)];
    }
  }

  /** handleMessageDelete */
  method DeleteMessage(c: Caches, messageID: ID, channelID: ID, guildID: Option<ID>) returns (events: seq<BotEvent>)
    modifies c
    ensures events == DeleteEvents(messageID, Cached(old(c.messages), (channelID, messageID)), channelID, guildID)
    ensures c.State() == old(c.State()).(messages := old(c.messages) - {(channelID, messageID)})
  {
    var message, _ := c.RemoveMessage(channelID, messageID);
    events := [BotEvent.MessageDelete(messageID, message, channelID, guildID)];
    if guildID.None? {
      events := events + [DMMessageDelete(messageID, message, channelID)];
    } else {
      events := events + [GuildMessageDelete(messageID, message, channelID, guildID.value)];
    }
  }

  /** gatewayHandlerMessageDelete */
  method HandleMessageDelete(c: Caches, event: GatewayEvents.MessageDelete) returns (events: seq<BotEvent>)
    modifies c
    ensures events == DeleteEvents(event.id, Cached(old(c.messages), (event.channelID, event.id)), event.channelID, event.guildID)
    ensures c.State() == old(c.State()).(messages := old(c.messages) - {(event.channelID, event.id)})
  {
    events := DeleteMessage(c, event.id, event.channelID, event.guildID);
  }

  /** The messages left after deleting each ID of the list, in order. */
  function BulkRemoved(messages: map<Key, Message>, channelID: ID, ids: seq<ID>): map<Key, Message>
    decreases |ids|
  {
    if ids == [] then messages
    else BulkRemoved(messages, channelID, ids[..|ids| - 1]) - {(channelID, ids[|ids| - 1])}
  }

  /** The events of a bulk delete: each ID's delete sees the cache as the earlier deletes left it. */
  function BulkDeleteEvents(messages: map<Key, Message>, channelID: ID, guildID: Option<ID>, ids: seq<ID>): seq<BotEvent>
    decreases |ids|
  {
    if ids == [] then []
    else
      var init := ids[..|ids| - 1];
      var id := ids[|ids| - 1];
      BulkDeleteEvents(messages, channelID, guildID, init)
      + DeleteEvents(id, Cached(BulkRemoved(messages, channelID, init), (channelID, id)), channelID, guildID)
  }

  /** The i-th delete of a bulk delete, in terms of the first i. */
  lemma BulkStep(messages: map<Key, Message>, channelID: ID, guildID: Option<ID>, ids: seq<ID>, i: int)
    requires 0 <= i < |ids|
    ensures BulkRemoved(messages, channelID, ids[..i + 1]) == BulkRemoved(messages, channelID, ids[..i]) - {(channelID, ids[i])}
    ensures BulkDeleteEvents(messages, channelID, guildID, ids[..i + 1])
            == BulkDeleteEvents(messages, channelID, guildID, ids[..i])
               + DeleteEvents(ids[i], Cached(BulkRemoved(messages, channelID, ids[..i]), (channelID, ids[i])), channelID, guildID)
  {
    assert ids[..i + 1][..i] == ids[..i];
  }

  /** gatewayHandlerMessageDeleteBulk: every ID goes through the single delete, in list order. */
  method HandleMessageDeleteBulk(c: Caches, event: MessageDeleteBulk) returns (events: seq<BotEvent>)
    modifies c
    ensures events == BulkDeleteEvents(old(c.messages), event.channelID, event.guildID, event.ids)
    ensures c.State() == old(c.State()).(messages := BulkRemoved(old(c.messages), event.channelID, event.ids))
  {
    ghost var s0 := c.State();
    var ids := event.ids;
    events := [];
    for i := 0 to |ids|
      invariant events == BulkDeleteEvents(s0.messages, event.channelID, event.guildID, ids[..i])
      invariant c.State() == s0.(messages := BulkRemoved(s0.messages, event.channelID, ids[..i]))
    {
      var deleted := DeleteMessage(c, ids[i], event.channelID, event.guildID);
      events := events + deleted;
      BulkStep(s0.messages, event.channelID, event.guildID, ids, i);
    }
    assert ids[..|ids|] == ids;
  }

  // ---------------------------------------------------------------------------------------
  // What the handlers promise

  /** A create on a cached guild message channel makes the new message that channel's last message. */
  lemma CreateRecordsLastMessage(channels: map<ID, GuildChannel>, channelID: ID, messageID: ID)
    requires channelID in channels && channels[channelID].IsGuildMessageChannel()
    requires channels[channelID].ID() == channelID
    ensures var r := WithLastMessage(channels, channelID, messageID);
            && r.Keys == channels.Keys
            && r[channelID].IsGuildMessageChannel() && r[channelID].LastMessageID() == Some(messageID)
            && r[channelID].Type() == channels[channelID].Type()
            && forall id :: id in r && id != channelID ==> r[id] == channels[id]
  {
  }

  /** A create whose channel is not a cached guild message channel leaves the channels alone. */
  lemma CreateElsewhereKeepsChannels(channels: map<ID, GuildChannel>, channelID: ID, messageID: ID)
    requires !(channelID in channels && channels[channelID].IsGuildMessageChannel())
    ensures WithLastMessage(channels, channelID, messageID) == channels
  {
  }

  /** A bulk delete removes exactly the listed IDs of its channel. */
  lemma {:induction false} BulkRemovedExactly(messages: map<Key, Message>, channelID: ID, ids: seq<ID>, k: Key)
    ensures k in BulkRemoved(messages, channelID, ids) <==> k in messages && !(k.0 == channelID && k.1 in ids)
    ensures k in BulkRemoved(messages, channelID, ids) ==> BulkRemoved(messages, channelID, ids)[k] == messages[k]
    decreases |ids|
  {
    if ids != [] {
      var init := ids[..|ids| - 1];
      BulkRemovedExactly(messages, channelID, init, k);
      assert ids == init + [ids[|ids| - 1]];
    }
  }

  /** Two events per listed ID. */
  lemma {:induction false} BulkDeleteEventsLength(messages: map<Key, Message>, channelID: ID, guildID: Option<ID>, ids: seq<ID>)
    ensures |BulkDeleteEvents(messages, channelID, guildID, ids)| == 2 * |ids|
    decreases |ids|
  {
    if ids != [] {
      BulkDeleteEventsLength(messages, channelID, guildID, ids[..|ids| - 1]);
    }
  }

  /**
   * With distinct IDs, the events for the i-th ID are the single delete's events carrying the
   * message the cache held before the bulk delete began.
   */
  lemma {:induction false} BulkDeleteEventsAt(messages: map<Key, Message>, channelID: ID, guildID: Option<ID>, ids: seq<ID>, i: int)
    requires Distinct(ids)
    requires 0 <= i < |ids|
    ensures var r := BulkDeleteEvents(messages, channelID, guildID, ids);
            var d := DeleteEvents(ids[i], Cached(messages, (channelID, ids[i])), channelID, guildID);
            |r| == 2 * |ids| && r[2 * i] == d[0] && r[2 * i + 1] == d[1]
    decreases |ids|
  {
    var init := ids[..|ids| - 1];
    var last := ids[|ids| - 1];
    var r := BulkDeleteEvents(messages, channelID, guildID, ids);
    var before := BulkDeleteEvents(messages, channelID, guildID, init);
    var step := DeleteEvents(last, Cached(BulkRemoved(messages, channelID, init), (channelID, last)), channelID, guildID);
    assert r == before + step;
    BulkDeleteEventsLength(messages, channelID, guildID, init);
    if i < |ids| - 1 {
      DistinctPrefix(ids);
      BulkDeleteEventsAt(messages, channelID, guildID, init, i);
      assert init[i] == ids[i];
      assert r[2 * i] == before[2 * i] && r[2 * i + 1] == before[2 * i + 1];
    } else {
      BulkLastStillCached(messages, channelID, ids);
      assert r[2 * i] == step[0] && r[2 * i + 1] == step[1];
    }
  }

  lemma DistinctPrefix(ids: seq<ID>)
    requires Distinct(ids) && ids != []
    ensures Distinct(ids[..|ids| - 1])
  {
    var init := ids[..|ids| - 1];
    forall a, b | 0 <= a < b < |init| ensures init[a] != init[b] {
      assert init[a] == ids[a] && init[b] == ids[b];
    }
  }

  /** With distinct IDs, the earlier deletes of a bulk delete leave the last ID's message in place. */
  lemma BulkLastStillCached(messages: map<Key, Message>, channelID: ID, ids: seq<ID>)
    requires Distinct(ids) && ids != []
    ensures var id := ids[|ids| - 1];
            Cached(BulkRemoved(messages, channelID, ids[..|ids| - 1]), (channelID, id)) == Cached(messages, (channelID, id))
  {
    var id := ids[|ids| - 1];
    var init := ids[..|ids| - 1];
    BulkRemovedExactly(messages, channelID, init, (channelID, id));
    assert id !in init by {
      forall j | 0 <= j < |init| ensures init[j] != id {
        assert init[j] == ids[j];
      }
    }
  }

  /** A message that is updated and then deleted is reported by the delete as the updated message. */
  method UpdateThenDeleteReportsUpdate(c: Caches, m: Message) returns (events: seq<BotEvent>)
    modifies c
    ensures events == DeleteEvents(m.id, m, m.channelID, m.guildID)
    ensures MessageKey(m) !in c.messages
  {
    var _ := HandleMessageUpdate(c, m);
    events := DeleteMessage(c, m.id, m.channelID, m.guildID);
  }
}
