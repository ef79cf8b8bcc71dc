// bot/handlers/channel_handler.go: guild channel create, update and delete, and the pins update,
// which only touches the cache for a cached guild message channel.
module ChannelHandlers {
  import opened Wrappers
  import opened Snowflakes
  import opened GoTime
  import opened Channels
  import opened GatewayEvents
  import opened Caches
  import opened BotEvents

  /** gatewayHandlerChannelCreate */
  method HandleChannelCreate(c: Caches, channel: GuildChannel) returns (events: seq<BotEvent>)
    modifies c
    ensures events == [GuildChannelCreate(channel.ID(), channel, channel.GuildID())]
    ensures c.State() == old(c.State()).(channels := old(c.channels)[channel.ID() := channel])
  {
    c.AddChannel(channel);
    events := [GuildChannelCreate(channel.ID(), channel, channel.GuildID())];
  }

  /** gatewayHandlerChannelUpdate: the channel cached under the ID before the update, if any, is the old one. */
  method HandleChannelUpdate(c: Caches, channel: GuildChannel) returns (events: seq<BotEvent>)
    modifies c
    ensures var id := channel.ID();
            events == [GuildChannelUpdate(id, channel, channel.GuildID(), if id in old(c.channels) then Some(old(c.channels)[id]) else None)]
    ensures c.State() == old(c.State()).(channels := old(c.channels)[channel.ID() := channel])
  {
    var oldChannel := c.Channel(channel.ID());
    c.AddChannel(channel);
    events := [GuildChannelUpdate(channel.ID(), channel, channel.GuildID(), oldChannel)];
  }

  /** gatewayHandlerChannelDelete: the event carries the channel from the payload, not the cached one. */
  method HandleChannelDelete(c: Caches, channel: GuildChannel) returns (events: seq<BotEvent>)
    modifies c
    ensures events == [GuildChannelDelete(channel.ID(), channel, channel.GuildID())]
    ensures c.State() == old(c.State()).(channels := old(c.channels) - {channel.ID()})
  {
    var _ := c.RemoveChannel(channel.ID());
    events := [GuildChannelDelete(channel.ID(), channel, channel.GuildID())];
  }

  /** The channels after a guild pins update: a cached guild message channel takes the new pin timestamp. */
  function WithLastPin(channels: map<ID, GuildChannel>, channelID: ID, lastPin: Option<Time>): map<ID, GuildChannel>
  {
    if channelID in channels && channels[channelID].IsGuildMessageChannel() then
      var ch: GuildChannel := ApplyLastPinTimestampToChannel(channels[channelID], lastPin);
      channels[ch.ID() := ch]
    else channels
  }

  /** The pin timestamp a guild pins update reports as the old one: nil unless a message channel is cached. */
  function OldLastPin(channels: map<ID, GuildChannel>, channelID: ID): Option<Time>
  {
    if channelID in channels && channels[channelID].IsGuildMessageChannel() then channels[channelID].LastPinTimestamp()
    else None
  }

  /** gatewayHandlerChannelPinsUpdate */
  method HandleChannelPinsUpdate(c: Caches, event: ChannelPinsUpdate) returns (events: seq<BotEvent>)
    modifies c
    ensures event.guildID.None? ==>
              events == [DMChannelPinsUpdate(event.channelID, event.lastPinTimestamp)] && c.State() == old(c.State())
    ensures event.guildID.Some? ==>
              && events == [GuildChannelPinsUpdate(event.guildID.value, event.channelID,
                                                   OldLastPin(old(c.channels), event.channelID), event.lastPinTimestamp)]
              && c.State() == old(c.State()).(channels := WithLastPin(old(c.channels), event.channelID, event.lastPinTimestamp))
  {
    if event.guildID.None? {
      return [DMChannelPinsUpdate(event.channelID, event.lastPinTimestamp)];
    }
    var oldTime: Option<Time> := None;
    var channel := c.GuildMessageChannel(event.channelID);
    if channel.Some? {
      oldTime := channel.value.LastPinTimestamp();
      c.AddChannel(ApplyLastPinTimestampToChannel(channel.value, event.lastPinTimestamp));
    }
    events := [GuildChannelPinsUpdate(event.guildID.value, event.channelID, oldTime, event.lastPinTimestamp)];
  }

  /**
   * On a cached text channel keyed by its own ID, a pins update records the new timestamp, and a
   * second update then reports it as the old one. A voice channel keeps no pin timestamp.
   */
  lemma PinsUpdateRecordsTimestamp(channels: map<ID, GuildChannel>, channelID: ID, first: Option<Time>)
    requires channelID in channels && channels[channelID].IsGuildMessageChannel()
    requires channels[channelID].ID() == channelID
    ensures var r := WithLastPin(channels, channelID, first);
            && r.Keys == channels.Keys
            && (forall id :: id in r && id != channelID ==> r[id] == channels[id])
            && (channels[channelID].AsGuildText? ==> OldLastPin(r, channelID) == first)
            && (channels[channelID].AsGuildVoice? ==> OldLastPin(r, channelID) == None && r == channels)
  {
  }

  /** A pins update for a channel that is not a cached guild message channel changes nothing and reports no old timestamp. */
  lemma PinsUpdateElsewhere(channels: map<ID, GuildChannel>, channelID: ID, lastPin: Option<Time>)
    requires !(channelID in channels && channels[channelID].IsGuildMessageChannel())
    ensures WithLastPin(channels, channelID, lastPin) == channels
    ensures OldLastPin(channels, channelID) == None
  {
  }

  /** An update after a create of the same channel reports the created channel as the old one. */
  method CreateThenUpdateReportsCreated(c: Caches, created: GuildChannel, updated: GuildChannel) returns (events: seq<BotEvent>)
    requires created.ID() == updated.ID()
    modifies c
    ensures events == [GuildChannelUpdate(updated.ID(), updated, updated.GuildID(), Some(created))]
    ensures c.channels == old(c.channels)[updated.ID() := updated]
  {
    var _ := HandleChannelCreate(c, created);
    events := HandleChannelUpdate(c, updated);
  }
}
