// The events the cache handlers hand to the event manager, in the order they dispatch them.
// The generic part every event carries (client, sequence number, shard ID) is not modelled.
module BotEvents {
  import opened Wrappers
  import opened Snowflakes
  import opened GoTime
  import opened Entities
  import opened Emojis
  import opened Channels
  import opened Messages
  import opened GatewayEvents

  datatype BotEvent =
    // guild_emojis_update_handler.go
    | EmojisUpdate(emojisUpdate: GuildEmojisUpdate)
    | EmojiCreate(guildID: ID, emoji: Emoji)
    | EmojiUpdate(guildID: ID, emoji: Emoji, oldEmoji: Emoji)
    | EmojiDelete(guildID: ID, emoji: Emoji)
    // guild_stickers_update_handler.go
    | StickersUpdate(stickersUpdate: GuildStickersUpdate)
    | StickerCreate(guildID: ID, sticker: Sticker)
    | StickerUpdate(guildID: ID, sticker: Sticker, oldSticker: Sticker)
    | StickerDelete(guildID: ID, sticker: Sticker)
    // presence_update_handler.go
    | PresenceUpdate(presence: Presence)
    | UserStatusUpdate(userID: ID, oldStatus: OnlineStatus, status: OnlineStatus)
    | UserClientStatusUpdate(userID: ID, oldClientStatus: ClientStatus, clientStatus: ClientStatus)
    | UserActivityStop(userID: ID, guildID: ID, activity: Activity)
    | UserActivityStart(userID: ID, guildID: ID, activity: Activity)
    | UserActivityUpdate(userID: ID, guildID: ID, activity: Activity, oldActivity: Activity)
    // guild_handlers.go
    | GuildReady(guildID: ID, gatewayGuild: GatewayGuild)
    | GuildsReady
    | GuildAvailable(guildID: ID, gatewayGuild: GatewayGuild)
    | GuildJoin(guildID: ID, gatewayGuild: GatewayGuild)
    | GuildUpdate(guildID: ID, guild: Guild, oldGuild: Guild)
    | GuildUnavailable(guildID: ID, guild: Guild)
    | GuildLeave(guildID: ID, guild: Guild)
    // message_handler.go: the generic events carry the optional guild ID, the guild events a present one
    | MessageCreate(messageID: ID, message: Message, channelID: ID, messageGuildID: Option<ID>)
    | DMMessageCreate(messageID: ID, message: Message, channelID: ID)
    | GuildMessageCreate(messageID: ID, message: Message, channelID: ID, guildID: ID)
    | MessageUpdate(messageID: ID, message: Message, channelID: ID, messageGuildID: Option<ID>, oldMessage: Message)
    | DMMessageUpdate(messageID: ID, message: Message, channelID: ID, oldMessage: Message)
    | GuildMessageUpdate(messageID: ID, message: Message, channelID: ID, guildID: ID, oldMessage: Message)
    | MessageDelete(messageID: ID, message: Message, channelID: ID, messageGuildID: Option<ID>)
    | DMMessageDelete(messageID: ID, message: Message, channelID: ID)
    | GuildMessageDelete(messageID: ID, message: Message, channelID: ID, guildID: ID)
    // channel_handler.go
    | GuildChannelCreate(channelID: ID, channel: GuildChannel, guildID: ID)
    | GuildChannelUpdate(channelID: ID, channel: GuildChannel, guildID: ID, oldChannel: Option<GuildChannel>)
    | GuildChannelDelete(channelID: ID, channel: GuildChannel, guildID: ID)
    | DMChannelPinsUpdate(channelID: ID, newLastPinTimestamp: Option<Time>)
    | GuildChannelPinsUpdate(guildID: ID, channelID: ID, oldLastPinTimestamp: Option<Time>, newLastPinTimestamp: Option<Time>)
}
