# fluxergo core, modelled in Dafny

fluxergo is a Go client library for the Fluxer chat platform. A bot built on it receives gateway
events over a WebSocket and folds each one into an in-memory entity cache. It then hands
higher-level events to its listeners. It uses REST for everything else, and OAuth2 to act for users.

This project models the sequential logic around the WebSocket engine and proves properties of
that model. It covers:

- **The entity cache** (`Caches`). The unready and unavailable guild sets, the self-user slot,
  and the keyed and grouped caches with their bulk removals. The guild-level and channel-level
  permission computations over cached guilds, roles and overwrites. The cache policy combinators.
- **The gateway event handlers.** Guild create, update and delete; message create, update,
  delete and bulk delete; channel create, update, delete and pins update; the emoji and sticker
  list diffs; the presence and activity diff. Each handler is a method on the cache class. It
  returns the sequence of events it dispatches, and its contract gives the exact new cache state.
- **The entity values and update builders.** The channel sum type with its type codes, accessors,
  decoding and `Apply*` updaters. The raw channel records. The message type and flag tables, the
  jump URL and the nonce decoder. Emoji text forms. The copy-and-return `MessageUpdate` and
  `WebhookMessageUpdate` builders.
- **The gateway wire envelope and configuration.** Opcode and event-type dispatch, the decode-time
  fix-ups of event payloads, the heartbeat encoding, the presence and activity options, and the
  gateway config with its defaults and `With*` options.
- **The small parsers and routing.** Webhook URL parsing, application-ID extraction from a bot
  token, shard routing and presence in the bot client, OAuth2 sessions and scope checks, and the
  entitlement query values.

JSON is abstract. A payload arrives as the record its alias type decodes to, or as the decode
error. Time is a count of nanoseconds since Go's zero time. Foreign calls are parameters:
`time.Now`, `url.Parse`, `snowflake.ID.Time` and the REST endpoints.

Two mistakes in the source were found while proving the presence handler; see "## Findings". In
each case the rest of the model uses the corrected definition, and the as-written definition is
kept beside it with a lemma that shows the mistake. For isActivityUpdated the whole update loop
is also kept as written, so the events the source sends for a re-sent presence are stated too.

The gateway and each shard are objects with a stored presence. Setting the presence applies the
options through that object, as the Go pointer does, so successive calls build on each other.

## Model

| member | source | states |
|---|---|---|
| BitFlags.MissingIsNotHas | fluxer/message.go:270-277 | Missing(bits) holds exactly when Has(bits) does not |
| BitFlags.AddIsUnion | fluxer/message.go:260-262 | Add sets exactly the union of the given bits on top of the flags |
| BitFlags.RemoveIsDifference | fluxer/message.go:265-267 | Remove clears exactly the union of the given bits and keeps the rest |
| BitFlags.HasAfterAdd | fluxer/channel.go:38-50 | after Add, Has of every added bit is true |
| BitFlags.NoneAfterRemove | fluxer/channel.go:43-55 | after Remove, no removed bit is present |
| BitFlags.Add | fluxer/message.go:260-262 | every bit of the flags is still set afterwards |
| BitFlags.Remove | fluxer/message.go:265-267 | no bit is set afterwards that was not set before |
| BitFlags.Has | fluxer/message.go:270-272 | Has of no bits at all is true |
| BitFlags.Missing | fluxer/message.go:275-277 | Missing of no bits at all is false |
| Permissions.RoleOverwriteFor | cache/caches.go:791-799 | a found overwrite is a role overwrite for that role taken from the list, and nothing is found exactly when the list has no role overwrite for it |
| Permissions.MemberOverwriteFor | cache/caches.go:807-810 | a found overwrite is a member overwrite for that user taken from the list, and nothing is found exactly when the list has no member overwrite for it |
| Snowflakes.ParseUint64 | internal/tokenhelper/tokenhelper.go:18-21 | snowflake.Parse accepts exactly non-empty all-digit text below 2^64 and returns its value; anything else is an error |
| Snowflakes.DecimalStringDenotes | webhook/webhook_client.go:46 | the decimal text of a number is non-empty digits, without a leading zero unless it is 0, and denotes that number |
| Snowflakes.ParseIDString | webhook/webhook_client.go:46-49 | formatting an ID and parsing the text back gives the same ID |
| Snowflakes.ParseInt64 | fluxer/message.go:301-305 | a parsed value lies in the int64 range and has the sign the text starts with; unsigned digit text in range parses to its value; unsigned text with any other character is an error |
| Snowflakes.ParseIntString | fluxer/message.go:301-306 | every int64 survives FormatInt followed by ParseInt |
| Snowflakes.ParseIntCanonical | fluxer/message.go:301-306 | whatever spelling was accepted (sign, leading zeros), the canonical decimal text of its value parses to the same value |
| Snowflakes.ParseID | webhook/webhook_client.go:46-49 | snowflake.Parse succeeds exactly on non-empty digit text below 2^64, and gives its value |
| Snowflakes.IDString | fluxer/emoji.go:70-72 | an ID's text is non-empty digits denoting it, starting with '0' only for ID 0 |
| Snowflakes.IntString | fluxer/message.go:306 | strconv.FormatInt writes a '-' exactly for a negative number, followed by digits denoting its magnitude |
| TokenHelper.IDFromToken | internal/tokenhelper/tokenhelper.go:11-23 | the empty-split error is never returned, since a split is never empty; the result is an ID exactly when the text before the first '.' parses as one |
| GoTime.After | cache/caches.go:772 | t.After(u) is u.Before(t) |
| GoTime.AddDuration | oauth2/client.go:194 | adding a positive duration gives a later instant and a negative one an earlier instant |
| GoStrings.Split | internal/tokenhelper/tokenhelper.go:13 | strings.Split always gives at least one piece, and no piece contains the separator |
| GoStrings.JoinSplit | internal/tokenhelper/tokenhelper.go:13 | joining the pieces of a split with the separator gives back the text |
| GoStrings.SplitAtFirst | internal/tokenhelper/tokenhelper.go:13 | the first piece is the text before the first separator, and the rest is the split of what follows it |
| GoStrings.SplitJoin | internal/tokenhelper/tokenhelper.go:13 | splitting a join of separator-free pieces gives the pieces back |
| GoStrings.Fields | webhook/webhook_client.go:40 | strings.FieldsFunc on '/' gives only non-empty pieces without the separator |
| GoStrings.FieldsConcat | webhook/webhook_client.go:40 | the fields, concatenated, are the text with every separator removed, so no other character is lost |
| GoStrings.FieldsOfPath | webhook/webhook_client.go:40-46 | a path of non-empty segments, each after a '/', has exactly those segments as fields |
| ChannelsRaw.UnwrapAt | fluxer/channels_raw.go:141-145 | unwrapping keeps the length, and element i comes from wrapper i, so the order is kept |
| ChannelsRaw.ParsedOverwritesShape | fluxer/channels_raw.go:137-146 | the parsed overwrite list is nil exactly for empty input, and otherwise matches the input element by element |
| ChannelsRaw.ParsePermissionOverwrites | fluxer/channels_raw.go:137-146 | the loop that fills a new slice index by index gives the parsed list |
| ChannelsRaw.UnmarshalGuildText | fluxer/channels_raw.go:44-56 | every field except the overwrites comes from the alias decode, and the overwrites are the parsed wire list |
| ChannelsRaw.UnmarshalGuildLinkExtended | fluxer/channels_raw.go:69-81 | every field except the overwrites comes from the alias decode, and the overwrites are the parsed wire list |
| ChannelsRaw.UnmarshalGuildCategory | fluxer/channels_raw.go:92-104 | every field except the overwrites comes from the alias decode, and the overwrites are the parsed wire list |
| ChannelsRaw.UnmarshalGuildVoice | fluxer/channels_raw.go:123-135 | every field except the overwrites comes from the alias decode, and the overwrites are the parsed wire list |
| ChannelsRaw.WrapOverwrites | fluxer/channels_raw.go:137-146 | the wire form of an overwrite list has one element per overwrite, and nil encodes like empty |
| ChannelsRaw.ParseWrapped | fluxer/channels_raw.go:137-146 | encoding and then parsing an overwrite list gives it back, except that an empty non-nil list comes back nil |
| Channels.TypeFromCode | fluxer/channel.go:17-24 | the codes are GuildText 0, DM 1, GuildVoice 2, GroupDM 3, GuildCategory 4 and LinkExtended 998; any other code selects no variant |
| Channels.TypeCodeRoundTrip | fluxer/channel.go:17-24 | every channel type's code maps back to that type, so the codes are distinct |
| Channels.TypeCode | fluxer/channel.go:17-24 | every code lies in 0 to 4 except the link-extended type's, which is 998 |
| Channels.ChannelFlagValues | fluxer/channel.go:28-35 | Pinned is 2, RequireTag 16 and HideMediaDownloadOptions 1<<15, and no two of them share a bit |
| Channels.Channel.Type | fluxer/channel.go:278-280 | each variant reports its own type code |
| Channels.Channel.Name | fluxer/channel.go:382-384 | a DM channel is named after its first recipient |
| Channels.Channel.ParentID | fluxer/channel.go:701-704 | a category channel never has a parent |
| Channels.Channel.LastPinTimestamp | fluxer/channel.go:598-601 | a voice channel never reports a pin timestamp |
| Channels.Channel.Topic | fluxer/channel.go:603-606 | a voice channel never reports a topic |
| Channels.Channel.DefaultAutoArchiveDuration | fluxer/channel.go:612-615 | a voice channel always reports 0 |
| Channels.Channel.ID | fluxer/channel.go:57-74 | every variant reports its own record's ID |
| Channels.Channel.IsGuildChannel | fluxer/channel.go:90-110 | every channel is a guild channel except DM and group DM channels |
| Channels.Channel.IsMessageChannel | fluxer/channel.go:76-88 | every channel is a message channel except category and link-extended channels |
| Channels.Channel.IsGuildMessageChannel | fluxer/channel.go:112-130 | a channel is a guild message channel exactly when it is both a guild channel and a message channel |
| Channels.Channel.GuildID | fluxer/channel.go:90-95 | each guild channel reports its own record's guild ID |
| Channels.Channel.PermissionOverwrites | fluxer/channel.go:90-107 | each guild channel reports its own record's overwrites |
| Channels.Channel.Position | fluxer/channel.go:90-99 | each guild channel reports its own record's position |
| Channels.Channel.LastMessageID | fluxer/channel.go:76-81 | each message channel reports its own record's last message ID |
| Channels.Channel.NSFW | fluxer/channel.go:112-122 | text and voice channels report their own record's NSFW flag |
| Channels.Channel.RateLimitPerUser | fluxer/channel.go:112-127 | text and voice channels report their own record's slow-mode rate |
| Channels.DecodedChannelAccessors | fluxer/channel.go:148-203 | after decoding, the accessors report the payload's guild ID, position, parsed overwrites, last message ID, NSFW flag and slow-mode rate |
| Channels.DecodeChannel | fluxer/channel.go:148-203 | decoding succeeds exactly for a known type code, and the channel then has that type and the payload's ID |
| Channels.UnmarshalChannel.UnmarshalJSON | fluxer/channel.go:148-203 | on success the held channel is the decoded one; a payload that cannot be read, or has an unknown type code, is an error and leaves the previous channel in place |
| Channels.DecodeEncode | fluxer/channel.go:148-264 | every channel survives encode-then-decode, except that an empty overwrite list comes back nil |
| Channels.GuildTextRecordRoundTrip | fluxer/channel.go:227-264 | unmarshalling a text channel and marshalling it again reproduces the raw record, with its type fixed to GuildText |
| Channels.ChannelString | fluxer/channel.go:861-863 | channelString is the type code's decimal text, ':', the channel's name, and the ID's decimal text in parentheses |
| Channels.ChannelStringType | fluxer/channel.go:861-863 | whatever the name holds, the text before the first ':' is all digits and gives back the channel's type |
| Channels.ApplyGuildIDToChannel | fluxer/channel.go:865-879 | text, voice and category channels take the guild ID and keep every other field; a link-extended channel is returned unchanged |
| Channels.ApplyLastMessageIDToChannel | fluxer/channel.go:881-892 | the channel keeps its type and ID; a text or voice channel takes the new last-message ID and keeps every other field |
| Channels.ApplyLastPinTimestampToChannel | fluxer/channel.go:894-902 | the channel keeps its type and ID; a text channel takes the timestamp and keeps every other field; a voice channel comes back unchanged |
| Emojis.ReactionString | fluxer/emoji.go:70-72 | reaction(name, id) is the name, a ':' and the ID's decimal text |
| Emojis.Reaction | fluxer/emoji.go:25-30 | Reaction() is empty exactly when the name is empty, and otherwise is "name:id" |
| Emojis.Mention | fluxer/emoji.go:33-38 | Mention() uses the animated form exactly when the emoji is animated |
| Emojis.EmojiString | fluxer/emoji.go:41-43 | String() is Mention() |
| Emojis.CreatedAt | fluxer/emoji.go:49-54 | CreatedAt() is the zero time for ID 0, and otherwise the time encoded in the ID |
| Emojis.ReactionInjective | fluxer/emoji.go:25-30 | for names that are non-empty and hold no ':', two emojis have the same reaction only when both the name and the ID agree |
| Emojis.EmojiMention | fluxer/emoji.go:33-38 | the static mention is "<:", the reaction text and ">" |
| Emojis.AnimatedEmojiMention | fluxer/emoji.go:33-38 | the animated mention is "<a:", the reaction text and ">" |
| Messages.ClassificationTables | fluxer/message.go:68-87 | System() is false exactly for Default, Reply, SlashCommand, ThreadStarterMessage and ContextMenuCommand; Deleteable() is false exactly for RecipientAdd, RecipientRemove, Call, ChannelNameChange, ChannelIconChange and ThreadStarterMessage |
| Messages.MessageFlagValues | fluxer/message.go:236-257 | Ephemeral is 64, SuppressNotifications 4096 and IsComponentsV2 1<<15, and no named flag uses bits 9 to 11 |
| Messages.JumpURL | fluxer/message.go:122-128 | the URL holds the "@me" segment for a DM message and the guild ID otherwise, followed by the channel and message IDs |
| Messages.JumpURLUsesMe | fluxer/message.go:122-128 | the guild segment is "@me" exactly when the message has no guild ID |
| Messages.MessageURL | fluxer/message.go:89-93 | the URL is the fixed prefix followed by a path that splits on '/' into exactly the three IDs' texts |
| Messages.System | fluxer/message.go:68-76 | a type is not a system message exactly when it is 0, 19, 20, 21 or 23 |
| Messages.Deleteable | fluxer/message.go:78-87 | a type is not deleteable exactly when it is 1, 2, 3, 4, 5 or 21 |
| Messages.Unquote | fluxer/message.go:300 | only a text inside double quotes unquotes |
| Messages.UnquotePlain | fluxer/message.go:300 | a quoted text without a backslash, quote or newline unquotes to itself |
| Messages.UnmarshalNonce | fluxer/message.go:295-312 | null keeps the current value; a quoted string gives its unquoted content; otherwise an int64 gives its canonical decimal text; anything else is an error |
| Messages.NonceFromPlainString | fluxer/message.go:300-310 | a quoted string without escapes decodes to its content |
| Messages.NonceFromInteger | fluxer/message.go:301-306 | a bare integer decodes to canonical decimal text: "+7" and "007" give "7", and "-0" gives "0" |
| Messages.NonceRejectsFraction | fluxer/message.go:301-304 | a number with a fraction, such as 1.5, is neither a string nor an int64 and is an error |
| Messages.NonceRejectsEscapedSlash | fluxer/message.go:300-304 | the JSON escape \/ is not a Go escape, so a string nonce holding it is rejected |
| Messages.Nonce.UnmarshalJSON | fluxer/message.go:295-312 | on success the decoded value is stored; on error the nonce is unchanged |
| MessageParts.NewFile | fluxer/message_update.go:129-132 | a new file carries the given name, description and flags |
| MessageParts.AttachmentIDs | fluxer/message_update.go:149-161 | the IDs of a list of attachments, one per attachment, in order |
| MessageUpdates.MessageUpdate.WithContent | fluxer/message_update.go:46-49 | the content is set to the text and nothing else changes |
| MessageUpdates.MessageUpdate.ClearContent | fluxer/message_update.go:57-59 | the content is an explicit empty text, not a missing one, and nothing else changes |
| MessageUpdates.MessageUpdate.WithEmbeds | fluxer/message_update.go:62-65 | the embeds become exactly the given list and nothing else changes |
| MessageUpdates.MessageUpdate.WithEmbed | fluxer/message_update.go:68-77 | an in-range index inserts the embed before that position (one longer, prefix and suffix kept); out of range the embeds are unchanged apart from nil becoming empty |
| MessageUpdates.MessageUpdate.AddEmbeds | fluxer/message_update.go:80-87 | the old embeds followed by the new ones |
| MessageUpdates.MessageUpdate.ClearEmbeds | fluxer/message_update.go:90-93 | an explicitly empty, non-nil list |
| MessageUpdates.MessageUpdate.RemoveEmbed | fluxer/message_update.go:96-105 | an in-range index is deleted and the rest keep their order; out of range nothing is removed |
| MessageUpdates.MessageUpdate.WithFiles | fluxer/message_update.go:108-111 | the files become exactly the given list and nothing else changes |
| MessageUpdates.MessageUpdate.UpdateFile | fluxer/message_update.go:114-120 | only an in-range position is replaced, and every other file stays |
| MessageUpdates.MessageUpdate.AddFiles | fluxer/message_update.go:123-126 | the old files followed by the new ones |
| MessageUpdates.MessageUpdate.AddFile | fluxer/message_update.go:129-132 | one new file is appended after the existing ones |
| MessageUpdates.MessageUpdate.ClearFiles | fluxer/message_update.go:135-138 | no files remain and nothing else changes |
| MessageUpdates.MessageUpdate.RemoveFile | fluxer/message_update.go:141-146 | an in-range position is deleted and the rest keep their order; out of range nothing changes |
| MessageUpdates.MessageUpdate.RetainAttachmentsByID | fluxer/message_update.go:164-176 | one Keep entry per ID, in order, after the existing attachments |
| MessageUpdates.MessageUpdate.RetainAttachments | fluxer/message_update.go:149-161 | one Keep entry per given attachment ID, in order, after the existing attachments |
| MessageUpdates.MessageUpdate.WithAllowedMentions | fluxer/message_update.go:179-182 | the allowed mentions are set as given (nil clears them) and nothing else changes |
| MessageUpdates.MessageUpdate.ClearAllowedMentions | fluxer/message_update.go:185-187 | the allowed mentions are unset and nothing else changes |
| MessageUpdates.MessageUpdate.WithFlags | fluxer/message_update.go:192-195 | the flags are set as given and nothing else changes |
| MessageUpdates.MessageUpdate.AddFlags | fluxer/message_update.go:198-205 | nil flags count as None; the result holds every old bit and every given bit, and nothing more |
| MessageUpdates.MessageUpdate.RemoveFlags | fluxer/message_update.go:208-215 | nil flags count as None; the result is the old flags without the given bits |
| MessageUpdates.MessageUpdate.ClearFlags | fluxer/message_update.go:218-220 | the flags are an explicit None, not nil |
| MessageUpdates.MessageUpdate.WithSuppressEmbeds | fluxer/message_update.go:223-235 | the flags become present and no other field changes; WithSuppressEmbedsOwnBit gives the bits |
| MessageUpdates.MessageUpdate.WithIsComponentsV2 | fluxer/message_update.go:239-251 | the flags become present and no other field changes; WithIsComponentsV2OwnBit gives the bits |
| MessageUpdates.NewMessageUpdate | fluxer/message_update.go:12-14 | every field is unset |
| MessageUpdates.InsertThenRemoveEmbed | fluxer/message_update.go:68-105 | inserting an embed and then removing the same position gives back the original embeds |
| MessageUpdates.AddEmbedsTwice | fluxer/message_update.go:80-87 | two AddEmbeds calls are one AddEmbeds of the concatenation |
| MessageUpdates.RetainedEntries | fluxer/message_update.go:149-176 | retaining attachments and retaining their IDs append the same Keep entries |
| MessageUpdates.WithSuppressEmbedsOwnBit | fluxer/message_update.go:223-235 | SuppressEmbeds is set exactly when asked for, and every other bit keeps its old value |
| MessageUpdates.WithIsComponentsV2OwnBit | fluxer/message_update.go:239-251 | IsComponentsV2 is set exactly when asked for, and every other bit keeps its old value |
| MessageUpdates.RemoveFlagsClears | fluxer/message_update.go:208-215 | after RemoveFlags none of the removed bits is present |
| WebhookMessageUpdates.WebhookMessageUpdate.WithContent | fluxer/webhook_message_update.go:44-47 | the content is set to the text and nothing else changes |
| WebhookMessageUpdates.WebhookMessageUpdate.ClearContent | fluxer/webhook_message_update.go:55-57 | the content is an explicit empty text, and nothing else changes |
| WebhookMessageUpdates.WebhookMessageUpdate.WithEmbeds | fluxer/webhook_message_update.go:60-63 | the embeds become exactly the given list and nothing else changes |
| WebhookMessageUpdates.WebhookMessageUpdate.WithEmbed | fluxer/webhook_message_update.go:66-76 | an in-range index replaces that position, so the length is kept; out of range the embeds are unchanged apart from nil becoming empty |
| WebhookMessageUpdates.WebhookMessageUpdate.AddEmbeds | fluxer/webhook_message_update.go:79-86 | the old embeds followed by the new ones |
| WebhookMessageUpdates.WebhookMessageUpdate.ClearEmbeds | fluxer/webhook_message_update.go:101-104 | an explicitly empty, non-nil list |
| WebhookMessageUpdates.WebhookMessageUpdate.RemoveEmbed | fluxer/webhook_message_update.go:89-98 | an in-range index is deleted and the rest keep their order; out of range nothing is removed |
| WebhookMessageUpdates.WebhookMessageUpdate.WithFiles | fluxer/webhook_message_update.go:107-110 | the files become exactly the given list and nothing else changes |
| WebhookMessageUpdates.WebhookMessageUpdate.UpdateFile | fluxer/webhook_message_update.go:113-119 | only an in-range position is replaced, and every other file stays |
| WebhookMessageUpdates.WebhookMessageUpdate.AddFiles | fluxer/webhook_message_update.go:122-125 | the old files followed by the new ones |
| WebhookMessageUpdates.WebhookMessageUpdate.AddFile | fluxer/webhook_message_update.go:128-131 | one new file is appended after the existing ones |
| WebhookMessageUpdates.WebhookMessageUpdate.ClearFiles | fluxer/webhook_message_update.go:134-137 | no files remain and nothing else changes |
| WebhookMessageUpdates.WebhookMessageUpdate.RemoveFile | fluxer/webhook_message_update.go:140-145 | an in-range position is deleted and the rest keep their order; out of range nothing changes |
| WebhookMessageUpdates.WebhookMessageUpdate.RetainAttachmentsByID | fluxer/webhook_message_update.go:163-175 | one Keep entry per ID, in order, after the existing attachments |
| WebhookMessageUpdates.WebhookMessageUpdate.RetainAttachments | fluxer/webhook_message_update.go:148-160 | one Keep entry per given attachment ID, in order, after the existing attachments |
| WebhookMessageUpdates.WebhookMessageUpdate.WithAllowedMentions | fluxer/webhook_message_update.go:178-181 | the allowed mentions are set as given (nil clears them) and nothing else changes |
| WebhookMessageUpdates.WebhookMessageUpdate.ClearAllowedMentions | fluxer/webhook_message_update.go:184-186 | the allowed mentions are unset and nothing else changes |
| WebhookMessageUpdates.WebhookMessageUpdate.WithFlags | fluxer/webhook_message_update.go:191-194 | the flags are set as given and nothing else changes |
| WebhookMessageUpdates.WebhookMessageUpdate.AddFlags | fluxer/webhook_message_update.go:197-204 | nil flags count as None; the result holds every old bit and every given bit, and nothing more |
| WebhookMessageUpdates.WebhookMessageUpdate.RemoveFlags | fluxer/webhook_message_update.go:207-214 | nil flags count as None; the result is the old flags without the given bits |
| WebhookMessageUpdates.WebhookMessageUpdate.ClearFlags | fluxer/webhook_message_update.go:217-219 | the flags are an explicit None, not nil |
| WebhookMessageUpdates.WebhookMessageUpdate.WithSuppressEmbeds | fluxer/webhook_message_update.go:222-234 | the flags become present and no other field changes; WithSuppressEmbedsOwnBit gives the bits |
| WebhookMessageUpdates.WebhookMessageUpdate.WithIsComponentsV2 | fluxer/webhook_message_update.go:238-250 | the flags become present and no other field changes; WithIsComponentsV2OwnBit gives the bits |
| WebhookMessageUpdates.NewWebhookMessageUpdate | fluxer/webhook_message_update.go:12-14 | every field is unset |
| WebhookMessageUpdates.ReplaceEmbedTwice | fluxer/webhook_message_update.go:66-76 | replacing the same position twice keeps only the second embed |
| WebhookMessageUpdates.ReplaceEmbedWithItself | fluxer/webhook_message_update.go:66-76 | replacing a position by the embed already there leaves the embeds as they were |
| WebhookMessageUpdates.AddEmbedsTwice | fluxer/webhook_message_update.go:79-86 | two AddEmbeds calls are one AddEmbeds of the concatenation |
| WebhookMessageUpdates.RetainedEntries | fluxer/webhook_message_update.go:148-175 | retaining attachments and retaining their IDs append the same Keep entries |
| WebhookMessageUpdates.WithSuppressEmbedsOwnBit | fluxer/webhook_message_update.go:222-234 | SuppressEmbeds is set exactly when asked for, and every other bit keeps its old value |
| WebhookMessageUpdates.WithIsComponentsV2OwnBit | fluxer/webhook_message_update.go:238-250 | IsComponentsV2 is set exactly when asked for, and every other bit keeps its old value |
| WebhookMessageUpdates.RemoveFlagsClears | fluxer/webhook_message_update.go:207-214 | after RemoveFlags none of the removed bits is present |
| Caches.SetMembership | cache/caches.go:85-91 | after setting, the ID is a member exactly when asked, and every other ID's membership is unchanged |
| Caches.SetMembershipIdempotent | cache/caches.go:85-91 | setting the same membership twice is the same as setting it once |
| Caches.SetMembershipNoop | cache/caches.go:105-111 | setting a membership that already holds changes nothing |
| Caches.GroupRemoved | cache/caches.go:309-311 | removing a group drops every entry of that group and keeps every other entry with its value |
| Caches.GroupValues | cache/caches.go:566-568 | the values of one group are exactly the values cached under that group |
| Caches.RemovedWhere | cache/caches.go:199-203 | RemoveIf drops exactly the entries whose value satisfies the predicate and keeps every other entry unchanged |
| Caches.MessagesWithoutGuildExactly | cache/caches.go:530-534 | removing a guild's messages drops exactly the messages with that guild ID; DM messages always survive unchanged |
| Caches.RoleListGuildPermissions | cache/caches.go:763-769 | whatever order the member's cached roles are visited in, granting them on top of @everyone gives the same guild-level permissions |
| Caches.OwnerHasAllPermissions | cache/caches.go:757-759 | the guild owner has every permission, timed out or not |
| Caches.TimeoutLeavesOnlyViewAndHistory | cache/caches.go:771-775 | a timed-out non-owner without the Administrator short cut keeps at most View Channel and Read Message History |
| Caches.EveryoneAdministratorNeedsARole | cache/caches.go:761-775 | Administrator granted only through @everyone does not lift a timeout when the member has no cached role |
| Caches.RoleAdministratorGivesAll | cache/caches.go:765-769 | a cached role of the member that carries Administrator gives every permission, even to a timed-out member |
| Caches.ChannelAllowWins | cache/caches.go:812-814 | a bit allowed by a role or member overwrite is kept even when another overwrite denies it |
| Caches.ChannelOwnerGetsAll | cache/caches.go:757-782 | the owner has every permission in every channel, whatever the overwrites and any timeout |
| Caches.Caches.constructor | cache/caches.go:701-719 | a new cache holds the given flags, every cache is empty and there is no self user |
| Caches.Caches.SelfUser | cache/caches.go:28-36 | reports the stored self user and true, or the zero user and false when none is stored |
| Caches.Caches.SetSelfUser | cache/caches.go:38-43 | stores the user and changes nothing else |
| Caches.Caches.SetGuildUnready | cache/caches.go:85-91 | the unready set becomes SetMembership of the old one, and nothing else changes |
| Caches.Caches.UnreadyGuildIDs | cache/caches.go:93-99 | lists each unready guild exactly once |
| Caches.Caches.SetGuildUnavailable | cache/caches.go:105-111 | the unavailable set becomes SetMembership of the old one, and nothing else changes |
| Caches.Caches.UnavailableGuildIDs | cache/caches.go:113-119 | lists each unavailable guild exactly once |
| Caches.Caches.Guild | cache/caches.go:121-123 | the cached guild and true, or the zero guild and false |
| Caches.Caches.AddGuild | cache/caches.go:133-135 | the guild is stored under its ID and nothing else changes |
| Caches.Caches.RemoveGuild | cache/caches.go:137-139 | reports the removed guild, if there was one, and drops exactly that entry |
| Caches.Caches.Channel | cache/caches.go:167-169 | the channel cached under the ID, if any |
| Caches.Caches.AddChannel | cache/caches.go:191-193 | the channel is stored under its ID and nothing else changes |
| Caches.Caches.RemoveChannel | cache/caches.go:195-197 | reports the removed channel, if there was one, and drops exactly that entry |
| Caches.Caches.RemoveChannelsByGuildID | cache/caches.go:199-203 | drops exactly the channels of that guild |
| Caches.Caches.ChannelsForGuild | cache/caches.go:175-185 | exactly the cached channels of the guild, one entry per channel |
| Caches.Caches.GuildMessageChannel | cache/caches.go:849-856 | the cached channel when it is a text or voice channel, otherwise nothing |
| Caches.Caches.GuildAudioChannel | cache/caches.go:858-865 | the cached channel when it is a voice channel, otherwise nothing |
| Caches.Caches.GuildTextChannel | cache/caches.go:867-874 | the text channel record when a text channel is cached under the ID |
| Caches.Caches.GuildVoiceChannel | cache/caches.go:876-883 | the voice channel record when a voice channel is cached under the ID |
| Caches.Caches.GuildCategoryChannel | cache/caches.go:885-892 | the category record when a category is cached under the ID |
| Caches.Caches.AddGuildScheduledEvent | cache/caches.go:247-249 | the event is stored under its guild and ID, and nothing else changes |
| Caches.Caches.RemoveGuildScheduledEventsByGuildID | cache/caches.go:255-257 | drops exactly that guild's scheduled events |
| Caches.Caches.AddRole | cache/caches.go:301-303 | the role is stored under its guild and ID, and nothing else changes |
| Caches.Caches.RemoveRolesByGuildID | cache/caches.go:309-311 | drops exactly that guild's roles |
| Caches.Caches.AddMember | cache/caches.go:355-357 | the member is stored under its guild and user ID, and nothing else changes |
| Caches.Caches.RemoveMembersByGuildID | cache/caches.go:363-365 | drops exactly that guild's members |
| Caches.Caches.Presence | cache/caches.go:393-395 | the presence cached for that guild and user, if any |
| Caches.Caches.AddPresence | cache/caches.go:409-411 | the presence is stored under its guild and user ID, and nothing else changes |
| Caches.Caches.RemovePresencesByGuildID | cache/caches.go:417-419 | drops exactly that guild's presences |
| Caches.Caches.AddVoiceState | cache/caches.go:463-465 | the voice state is stored under its guild and user ID, and nothing else changes |
| Caches.Caches.RemoveVoiceStatesByGuildID | cache/caches.go:471-473 | drops exactly that guild's voice states |
| Caches.Caches.Message | cache/caches.go:502-504 | the cached message and true, or the zero message and false |
| Caches.Caches.AddMessage | cache/caches.go:518-520 | the message is stored under its channel and ID, and nothing else changes |
| Caches.Caches.RemoveMessage | cache/caches.go:522-524 | reports the removed message, if there was one, and drops exactly that entry |
| Caches.Caches.RemoveMessagesByChannelID | cache/caches.go:526-528 | drops exactly that channel's messages |
| Caches.Caches.RemoveMessagesByGuildID | cache/caches.go:530-534 | drops exactly the messages whose guild ID is that guild |
| Caches.Caches.Emojis | cache/caches.go:566-568 | exactly the emojis cached under the guild |
| Caches.Caches.AddEmoji | cache/caches.go:578-580 | the emoji is stored under its guild and ID, and nothing else changes |
| Caches.Caches.RemoveEmoji | cache/caches.go:582-584 | drops exactly that entry |
| Caches.Caches.RemoveEmojisByGuildID | cache/caches.go:586-588 | drops exactly that guild's emojis |
| Caches.Caches.Stickers | cache/caches.go:620-622 | exactly the stickers cached under the guild |
| Caches.Caches.AddSticker | cache/caches.go:632-637 | a sticker without a guild ID leaves the cache unchanged; otherwise it is stored under its guild and ID |
| Caches.Caches.RemoveStickersByGuildID | cache/caches.go:643-645 | drops exactly that guild's stickers |
| Caches.Caches.MemberRoles | cache/caches.go:820-829 | exactly the cached roles of the member's guild whose ID the member lists, one entry each |
| Caches.Caches.MemberPermissions | cache/caches.go:756-776 | the loop with its Administrator short cut computes MemberPermissionsOf: the owner gets everything; otherwise @everyone plus the member's roles, becoming everything on Administrator, and cut down to the timeout mask while timed out |
| Caches.Caches.MemberPermissionsInChannel | cache/caches.go:778-818 | computes MemberPermissionsInChannelOf: Administrator gives everything; otherwise the @everyone overwrite (allow, then deny), then the other overwrites' deny and then their allow, then the timeout mask |
| Caches.Caches.AudioChannelMembers | cache/caches.go:831-839 | exactly the cached members whose cached voice state is in that channel, one entry per voice state |
| Caches.Caches.SelfMember | cache/caches.go:841-847 | nothing before the self user is known; afterwards the self user's cached member in that guild, if any |
| Caches.SelfUserLastSetWins | cache/caches.go:28-43 | after two SetSelfUser calls, SelfUser reports the first user and then the second |
| CachePolicies.PolicyNone | cache/cache_policy.go:12 | rejects every entity |
| CachePolicies.PolicyAll | cache/cache_policy.go:15 | accepts every entity |
| CachePolicies.PolicyMembersInclude | cache/cache_policy.go:18-22 | accepts a member exactly when its guild ID is listed |
| CachePolicies.PolicyMembersInVoice | cache/cache_policy.go:25-30 | accepts a member exactly when a voice state is cached for its guild and user |
| CachePolicies.PolicyChannelInclude | cache/cache_policy.go:33-37 | accepts a channel exactly when its type is listed |
| CachePolicies.PolicyChannelExclude | cache/cache_policy.go:40-44 | accepts a channel exactly when its type is not listed |
| CachePolicies.IncludeExcludeComplement | cache/cache_policy.go:33-44 | for the same type list, the include and exclude policies disagree on every channel |
| CachePolicies.Or | cache/cache_policy.go:50-54 | accepts exactly what either policy accepts |
| CachePolicies.And | cache/cache_policy.go:57-61 | accepts exactly what both policies accept |
| CachePolicies.AnyPolicyOf | cache/cache_policy.go:64-74 | nil exactly when no policies are given (what the combination accepts is AnyPolicyAcceptsIfSomeDoes) |
| CachePolicies.AllPoliciesOf | cache/cache_policy.go:77-87 | nil exactly when no policies are given (what the combination accepts is AllPoliciesAcceptIfAllDo) |
| CachePolicies.AnyPolicy | cache/cache_policy.go:64-74 | the loop with a nil-seeded accumulator builds AnyPolicyOf |
| CachePolicies.AllPolicies | cache/cache_policy.go:77-87 | the loop with a nil-seeded accumulator builds AllPoliciesOf |
| CachePolicies.AnyPolicyAcceptsIfSomeDoes | cache/cache_policy.go:64-74 | for a non-empty list, AnyPolicy accepts an entity exactly when some listed policy does |
| CachePolicies.AllPoliciesAcceptIfAllDo | cache/cache_policy.go:77-87 | for a non-empty list, AllPolicies accepts an entity exactly when every listed policy does |
| GatewayEvents.DecodeRateLimitedMeta | gateway/gateway_events.go:95-113 | only the RequestGuildMembers opcode reads the metadata, and its decode can fail; every other opcode gives an empty Unknown |
| GatewayEvents.RateLimitedMetaMatchesOpcode | gateway/gateway_events.go:95-103 | the metadata is RequestGuildMembers metadata exactly when the opcode is RequestGuildMembers |
| GatewayEvents.EventRateLimited.UnmarshalJSON | gateway/gateway_events.go:79-114 | on success all three fields are written; on a decode or metadata error the event is unchanged |
| GatewayEvents.GuildChannelEventPanics | gateway/gateway_events.go:123-162 | the payloads on which the channel events panic are exactly the DM and group DM ones |
| GatewayEvents.DecodeGuildChannelEvent | gateway/gateway_events.go:123-162 | a guild channel payload decodes to that channel; a decode error is passed through |
| GatewayEvents.StampReactionMember | gateway/gateway_events.go:209-220 | a present member takes the event's guild ID exactly when that is present too; nothing else changes |
| GatewayEvents.StampReactionMemberAgrees | gateway/gateway_events.go:215-218 | after the fix-up the member's guild agrees with the event's, and stamping again changes nothing |
| GatewayEvents.StampEmojis | gateway/gateway_events.go:307-310 | every emoji of the list carries the event's guild ID, the list keeps its length and every other field |
| GatewayEvents.UnmarshalGuildEmojisUpdate | gateway/gateway_events.go:301-312 | a decoded event has every emoji stamped with its guild ID; a decode error is passed through |
| GatewayEvents.StampEmojisTwice | gateway/gateway_events.go:307-310 | stamping is idempotent |
| GatewayEvents.DecodeRoleEvent | gateway/gateway_events.go:359-368 | decoding stamps the role with the event's guild ID |
| GatewayEvents.EncodeRoleEvent | gateway/gateway_events.go:370-374 | encoding first copies the role's guild ID into the event and writes the role unchanged |
| GatewayEvents.RoleEventEncodeDecode | gateway/gateway_events.go:359-374 | encoding then decoding gives the encoded event back, and its two guild IDs agree |
| GatewayEvents.RoleEventDecodeEncode | gateway/gateway_events.go:359-374 | a decoded event encodes to the same record and decodes back to itself |
| GatewayEvents.GuildRoleEvent.UnmarshalJSON | gateway/gateway_events.go:359-368 | the receiver becomes the decoded record with the role stamped; a decode error changes nothing |
| GatewayEvents.GuildRoleEvent.MarshalJSON | gateway/gateway_events.go:370-374 | the receiver's guild ID is overwritten with the role's before it is encoded |
| GatewayEvents.DecodeTypingStart | gateway/gateway_events.go:528-540 | every field is copied, and the timestamp is whole Unix seconds with no nanoseconds |
| GatewayEvents.TypingStartSecondsRecoverable | gateway/gateway_events.go:538 | distinct second counts give distinct timestamps |
| GatewayMessages.UnmarshalEventData | gateway/gateway_messages.go:109-319 | Resumed reads nothing; any other type succeeds exactly when its payload decodes, and a type without a case of its own keeps the raw payload |
| GatewayMessages.EventVariantTable | gateway/gateway_messages.go:109-319 | each event type with a case of its own, other than Resumed, gets its own variant carrying the payload |
| GatewayMessages.UndispatchedVariant | gateway/gateway_messages.go:109-319 | an event type without a case of its own keeps the raw payload as EventUnknown |
| GatewayMessages.EventVariantInjective | gateway/gateway_messages.go:109-319 | two different event types never decode to the same variant |
| GatewayMessages.UndispatchedTypesAreUnknown | gateway/gateway_messages.go:109-319 | member chunks and rate-limit notices have no case of their own and decode as EventUnknown |
| GatewayMessages.UnmarshalMessageData | gateway/gateway_messages.go:38-92 | Dispatch decodes the event data; Reconnect and HeartbeatACK do not read the payload; any other opcode succeeds exactly when its payload decodes; a known opcode gives the variant of that opcode and an unknown one keeps the raw payload |
| GatewayMessages.Message.UnmarshalJSON | gateway/gateway_messages.go:22-102 | on success op, s and t are copied, d is the decoded data and rawD is the raw payload; on any error nothing changes |
| GatewayMessages.MarshalHeartbeat | gateway/gateway_messages.go:328-333 | 0 encodes as null and any other sequence as its decimal text |
| GatewayMessages.HeartbeatRoundTrip | gateway/gateway_messages.go:328-333 | a non-zero heartbeat sequence reads back as the same int64 |
| GatewayMessages.ApplyActivityOptsAppend | gateway/gateway_messages.go:429-436 | applying a + b in order is applying a, then b |
| GatewayMessages.ApplyPresenceOptsAppend | gateway/gateway_config.go:194-202 | applying a + b in order is applying a, then b |
| GatewayMessages.WithActivity | gateway/gateway_messages.go:429-436 | the activities become exactly one, the template with its options applied in order, and nothing else changes |
| Entities.NewActivity | gateway/gateway_messages.go:377-382 | a new activity carries the given name and type and nothing else: no ID, URL, state, creation time or buttons |
| GatewayMessages.WithPlayingActivity | gateway/gateway_messages.go:377-382 | one Game activity of that name |
| GatewayMessages.StreamingActivity | gateway/gateway_messages.go:385-394 | the streaming template sets the URL only for a non-empty url |
| GatewayMessages.WithStreamingActivity | gateway/gateway_messages.go:385-394 | one Streaming activity from that template |
| GatewayMessages.WithListeningActivity | gateway/gateway_messages.go:397-402 | one Listening activity of that name |
| GatewayMessages.WithWatchingActivity | gateway/gateway_messages.go:405-410 | one Watching activity of that name |
| GatewayMessages.CustomActivity | gateway/gateway_messages.go:413-419 | the custom template's name is "Custom Status" and its State is the status text |
| GatewayMessages.WithCustomActivity | gateway/gateway_messages.go:413-419 | one Custom activity from that template |
| GatewayMessages.WithCompetingActivity | gateway/gateway_messages.go:422-427 | one Competing activity of that name |
| GatewayMessages.WithOnlineStatus | gateway/gateway_messages.go:439-443 | sets the status and nothing else |
| GatewayMessages.WithAfk | gateway/gateway_messages.go:446-450 | sets AFK and nothing else |
| GatewayMessages.WithSince | gateway/gateway_messages.go:453-457 | sets Since and nothing else |
| GatewayMessages.WithActivityState | gateway/gateway_messages.go:463-467 | sets the activity's State and nothing else |
| GatewayMessages.LaterStatusWins | gateway/gateway_messages.go:439-443 | whatever options come before it, a status option applied last decides the status |
| GatewayMessages.CustomActivityStateOverride | gateway/gateway_messages.go:413-467 | with a custom activity and a state option, the state option is applied last and wins |
| ExpressionDiffs.DiffOf | bot/handlers/guild_emojis_update_handler.go:32-46 | deleted holds exactly the cached entries whose IDs are not listed, with their cached values; every created entry is a listed entity under its own ID; every updated entry pairs the cached value with a listed entity of the same ID that changed reports as different |
| ExpressionDiffs.DiffPartitions | bot/handlers/guild_emojis_update_handler.go:32-46 | with distinct listed IDs, created is listed-not-cached, updated is within listed-and-cached, and deleted is cached-not-listed; the three are disjoint |
| ExpressionDiffs.DiffPlacesEach | bot/handlers/guild_stickers_update_handler.go:34-48 | each listed entity is created when its ID is not cached; otherwise it is updated, paired with the cached value, exactly when changed reports a difference |
| ExpressionDiffs.DiffPlacesLast | bot/handlers/guild_emojis_update_handler.go:32-46 | with distinct listed IDs, the last listed entity is created when not cached, and otherwise is updated, with its cached value, exactly when changed reports a difference |
| ExpressionDiffs.AfterDiffOtherGroups | bot/handlers/guild_emojis_update_handler.go:48-80 | applying the diff of one guild leaves every other guild's entries as they were |
| ExpressionDiffs.AfterDiffKeys | bot/handlers/guild_emojis_update_handler.go:48-80 | with distinct listed IDs, after the writes the group holds exactly the listed IDs |
| ExpressionDiffs.AfterDiffValue | bot/handlers/guild_emojis_update_handler.go:48-80 | with distinct listed IDs, each listed entity is cached with its listed value, except that an unchanged one keeps its cached value |
| GuildEmojisUpdateHandler.CachedEmojis | bot/handlers/guild_emojis_update_handler.go:28-31 | the cached emojis of the guild, keyed by emoji ID |
| GuildEmojisUpdateHandler.Diff | bot/handlers/guild_emojis_update_handler.go:32-46 | the loop over the event's emojis fills the three maps as DiffOf says, with isEmojiUpdated as the change test |
| GuildEmojisUpdateHandler.DispatchCreated | bot/handlers/guild_emojis_update_handler.go:48-56 | each created emoji is added to the cache and announced |
| GuildEmojisUpdateHandler.DispatchUpdated | bot/handlers/guild_emojis_update_handler.go:58-67 | each updated emoji's new value is written and announced with its old value |
| GuildEmojisUpdateHandler.DispatchDeleted | bot/handlers/guild_emojis_update_handler.go:69-80 | each deleted emoji is removed from the cache and announced |
| GuildEmojisUpdateHandler.CreateEventsCover | bot/handlers/guild_emojis_update_handler.go:48-56 | for any enumeration of the created map, one event per entry, every created emoji announced, and nothing but EmojiCreate events of that guild carrying a created emoji |
| GuildEmojisUpdateHandler.UpdateEventsCover | bot/handlers/guild_emojis_update_handler.go:58-67 | for any enumeration of the updated map, one event per entry, every (old, new) pair announced, and nothing but those pairs |
| GuildEmojisUpdateHandler.DeleteEventsCover | bot/handlers/guild_emojis_update_handler.go:69-80 | for any enumeration of the deleted map, one event per entry, every deleted emoji announced, and nothing else |
| GuildEmojisUpdateHandler.AfterDiffKeyed | bot/handlers/guild_emojis_update_handler.go:48-80 | applying the diff keeps every cached emoji under its own guild and ID |
| GuildEmojisUpdateHandler.HandleGuildEmojisUpdate | bot/handlers/guild_emojis_update_handler.go:18-82 | EmojisUpdate goes first; with the emoji flag missing nothing else happens; otherwise all creates, then all updates, then all deletes, and the cache is the group with the diff applied |
| GuildEmojisUpdateHandler.EmojisUpdateReplacesRenamed | bot/handlers/guild_emojis_update_handler.go:84-89 | with distinct IDs, every listed emoji is cached afterwards, and it replaces a cached one only when the name changed |
| GuildEmojisUpdateHandler.IsEmojiUpdated | bot/handlers/guild_emojis_update_handler.go:84-89 | an update is reported only for a real change, and every change counts when the emojis can differ only in their name |
| GuildStickersUpdateHandler.CachedStickers | bot/handlers/guild_stickers_update_handler.go:30-33 | the cached stickers of the guild, keyed by sticker ID |
| GuildStickersUpdateHandler.Diff | bot/handlers/guild_stickers_update_handler.go:34-48 | the loop over the event's stickers fills the three maps as DiffOf says, with isStickerUpdated as the change test |
| GuildStickersUpdateHandler.DispatchCreated | bot/handlers/guild_stickers_update_handler.go:50-58 | in whatever order the map is ranged, one StickerCreate per created sticker and no other event |
| GuildStickersUpdateHandler.DispatchUpdated | bot/handlers/guild_stickers_update_handler.go:60-69 | in whatever order the map is ranged, one StickerUpdate per updated sticker, with the new and the old value, and no other event |
| GuildStickersUpdateHandler.DispatchDeleted | bot/handlers/guild_stickers_update_handler.go:71-79 | in whatever order the map is ranged, one StickerDelete per deleted sticker and no other event |
| GuildStickersUpdateHandler.CreateEventsCover | bot/handlers/guild_stickers_update_handler.go:50-58 | for any enumeration of the created map, the events number one per sticker, include every created sticker's StickerCreate, and are all StickerCreate events of that guild carrying a created sticker |
| GuildStickersUpdateHandler.UpdateEventsCover | bot/handlers/guild_stickers_update_handler.go:60-69 | for any enumeration of the updated map, one event per entry, every (old, new) pair announced, and nothing but those pairs |
| GuildStickersUpdateHandler.DeleteEventsCover | bot/handlers/guild_stickers_update_handler.go:71-79 | for any enumeration of the deleted map, one event per entry, every deleted sticker announced, and nothing else |
| GuildStickersUpdateHandler.HandleGuildStickersUpdate | bot/handlers/guild_stickers_update_handler.go:20-80 | StickersUpdate goes first; with the sticker flag missing nothing follows; otherwise creates, then updates, then deletes; the cache is read and never written |
| GuildStickersUpdateHandler.StickersUpdateClassifies | bot/handlers/guild_stickers_update_handler.go:82-93 | with distinct IDs, a listed sticker is created exactly when not cached, and a cached one is updated exactly when its name, description or tags differ |
| GuildStickersUpdateHandler.IsStickerUpdated | bot/handlers/guild_stickers_update_handler.go:82-93 | an update is reported only for a real change, and every change counts when the stickers can differ only in name, description and tags |
| PresenceUpdateHandler.ComparePtr | bot/handlers/presence_update_handler.go:157-165 | false when both are nil, true when exactly one is, and otherwise whether the values differ |
| PresenceUpdateHandler.ComparePartialEmojiPtr | bot/handlers/presence_update_handler.go:167-181 | false when both are nil, true when exactly one is; otherwise a difference in ID, name or the animated flag |
| PresenceUpdateHandler.CompareActivityPartyPtr | bot/handlers/presence_update_handler.go:193-201 | false when both are nil, true when exactly one is, otherwise whether the parties differ |
| PresenceUpdateHandler.CompareActivityAssetsPtr | bot/handlers/presence_update_handler.go:203-211 | false when both are nil, true when exactly one is, otherwise whether the assets differ |
| PresenceUpdateHandler.CompareActivitySecretsPtr | bot/handlers/presence_update_handler.go:213-221 | false when both are nil, true when exactly one is, otherwise whether the secrets differ |
| PresenceUpdateHandler.CompareTimestampsAsWrittenFlagsEqual | bot/handlers/presence_update_handler.go:144 | as written, two identical present timestamp pairs are reported as differing, and two pairs whose start differs are reported as equal |
| PresenceUpdateHandler.CompareActivityTimestampsPtr | bot/handlers/presence_update_handler.go:137-145 | corrected: false when both are nil, true when exactly one is, and two present pairs differ when the start or the end differs |
| PresenceUpdateHandler.ActivityUpdatedAsWrittenAgainstItself | bot/handlers/presence_update_handler.go:115-135 | as written, every activity counts as updated against itself |
| PresenceUpdateHandler.IsActivityUpdated | bot/handlers/presence_update_handler.go:115-135 | corrected: an activity is updated exactly when it differs from the old one in something other than its ID |
| PresenceUpdateHandler.IndexOfActivity | bot/handlers/presence_update_handler.go:68-76 | the index of the first activity with that ID, or nothing when no activity has it |
| PresenceUpdateHandler.FindActivity | bot/handlers/presence_update_handler.go:91-97 | the inner loop with break finds the first activity with that ID, if there is one |
| PresenceUpdateHandler.DispatchStops | bot/handlers/presence_update_handler.go:65-77 | the stop loop dispatches StopEvents: one per old activity whose ID no new activity has |
| PresenceUpdateHandler.DispatchStarts | bot/handlers/presence_update_handler.go:79-89 | the start loop dispatches StartEvents: one per new activity whose ID no old activity has |
| PresenceUpdateHandler.DispatchUpdates | bot/handlers/presence_update_handler.go:90-112 | corrected: the update loop dispatches UpdateEvents: one per new activity whose ID an old activity has and that isActivityUpdated finds changed |
| PresenceUpdateHandler.DispatchStatus | bot/handlers/presence_update_handler.go:41-57 | UserStatusUpdate exactly when the status differs, then UserClientStatusUpdate exactly when the desktop, mobile or web status differs |
| PresenceUpdateHandler.DispatchChanges | bot/handlers/presence_update_handler.go:41-112 | corrected: the status events, then the stops, then the starts, then the updates, all against the zero values when nothing was cached |
| PresenceUpdateHandler.HandlePresenceUpdate | bot/handlers/presence_update_handler.go:15-113 | corrected: PresenceUpdate goes first; with the presence flag missing the cache is untouched and nothing follows; otherwise the old parts default to zero values, the new presence is stored, and the status and activity events follow |
| PresenceUpdateHandler.StopEventsExactly | bot/handlers/presence_update_handler.go:65-77 | an old activity is announced as stopped exactly when no new activity has its ID |
| PresenceUpdateHandler.StartEventsExactly | bot/handlers/presence_update_handler.go:79-89 | a new activity is announced as started exactly when no old activity has its ID |
| PresenceUpdateHandler.UpdateEventsAgainstItself | bot/handlers/presence_update_handler.go:90-112 | against the same list with distinct IDs, the corrected test announces no activity as updated |
| PresenceUpdateHandler.ResentPresenceIsQuiet | bot/handlers/presence_update_handler.go:15-113 | corrected: re-sending the cached presence, with distinct activity IDs, dispatches nothing but the PresenceUpdate |
| PresenceUpdateHandler.StopEventKind | bot/handlers/presence_update_handler.go:65-77 | every stop event is a UserActivityStop of the presence's user and guild |
| PresenceUpdateHandler.StartEventKind | bot/handlers/presence_update_handler.go:79-89 | every start event is a UserActivityStart of the presence's user and guild |
| PresenceUpdateHandler.ResentPresenceAnnouncesUpdateAsWritten | bot/handlers/presence_update_handler.go:115-135 | as written, re-sending a presence with one activity announces that activity as updated |
| PresenceUpdateHandler.CompareActivityTimestampsPtrAsWritten | bot/handlers/presence_update_handler.go:137-145 | as written: false when both are nil, and a present pair compared with itself counts as differing |
| PresenceUpdateHandler.IsActivityUpdatedAsWritten | bot/handlers/presence_update_handler.go:115-135 | as written: equal creation instants, or equal button lists, are each enough to report a change |
| PresenceUpdateHandler.DispatchUpdatesAsWritten | bot/handlers/presence_update_handler.go:90-112 | as written: the update loop with the source's isActivityUpdated dispatches UpdateEventsAsWritten |
| PresenceUpdateHandler.UpdateEventsAsWrittenAgainstItself | bot/handlers/presence_update_handler.go:90-135 | as written: against a prefix of the old list with distinct IDs, the update loop announces every activity as updated, paired with itself |
| PresenceUpdateHandler.ResentPresenceUpdatesEveryActivityAsWritten | bot/handlers/presence_update_handler.go:65-135 | as written: re-sending the cached presence stops and starts nothing, and sends one UserActivityUpdate per activity, in order, each paired with itself |
| PresenceUpdateHandler.NoStopsOrStartsAgainstItself | bot/handlers/presence_update_handler.go:65-89 | against the cached activities themselves, the stop and start loops dispatch nothing |
| GuildHandlers.CacheGatewayGuild | bot/handlers/guild_handlers.go:17-56 | caches the guild, then each list in order, each entity stamped with the guild ID; scheduled events are cached unstamped |
| GuildHandlers.AddChannels | bot/handlers/guild_handlers.go:17-21 | each channel, stamped with the guild ID, is put in list order, so a later one with the same ID wins; nothing but the channel cache changes |
| GuildHandlers.AddRoles | bot/handlers/guild_handlers.go:23-26 | each role, stamped with the guild ID, is put in list order; nothing but the role cache changes |
| GuildHandlers.AddMembers | bot/handlers/guild_handlers.go:28-31 | each member, stamped with the guild ID, is put in list order; nothing but the member cache changes |
| GuildHandlers.AddVoiceStates | bot/handlers/guild_handlers.go:33-36 | each voice state, stamped with the guild ID, is put in list order; nothing but the voice-state cache changes |
| GuildHandlers.AddEmojis | bot/handlers/guild_handlers.go:38-41 | each emoji, stamped with the guild ID, is put in list order; nothing but the emoji cache changes |
| GuildHandlers.AddStickers | bot/handlers/guild_handlers.go:43-46 | each sticker, with the guild ID set, is put in list order; nothing but the sticker cache changes |
| GuildHandlers.AddScheduledEvents | bot/handlers/guild_handlers.go:48-50 | each scheduled event is put as it came, in list order; nothing but the scheduled-event cache changes |
| GuildHandlers.AddPresences | bot/handlers/guild_handlers.go:52-56 | each presence, stamped with the guild ID, is put in list order; nothing but the presence cache changes |
| GuildHandlers.GuildCreateEvents | bot/handlers/guild_handlers.go:63-95 | exactly one of GuildReady, GuildAvailable or GuildJoin, with unready first, then unavailable; GuildsReady follows a ready exactly when no guild is left unready |
| GuildHandlers.HandleGuildCreate | bot/handlers/guild_handlers.go:13-96 | both flags are read before any write; the unready path clears only the unready flag, the unavailable path only the unavailable flag; the cache gains the stamped entities; member chunking is requested exactly on the ready path when the chunking filter accepts the guild |
| GuildHandlers.HandleGuildUpdate | bot/handlers/guild_handlers.go:98-110 | the previously cached guild, or the zero guild, is reported as the old one, and the new guild is stored |
| GuildHandlers.HandleGuildDelete | bot/handlers/guild_handlers.go:112-144 | the unavailable flag is set when the event says so; the guild and all its entities are removed; exactly one of GuildUnavailable or GuildLeave is dispatched |
| GuildHandlers.SecondGuildUpdateReportsFirst | bot/handlers/guild_handlers.go:98-110 | a second update of the same guild reports the first update's guild as the old one |
| GuildHandlers.GuildCreateStampsChannel | bot/handlers/guild_handlers.go:17-21 | a channel not overridden by a later one is cached stamped with the guild ID (a link-extended one as it came) |
| GuildHandlers.GuildCreateStampsRole | bot/handlers/guild_handlers.go:23-26 | a role not overridden later is cached under the guild, stamped with its ID |
| GuildHandlers.GuildCreateStampsMember | bot/handlers/guild_handlers.go:28-31 | a member not overridden later is cached under the guild, stamped with its ID |
| GuildHandlers.GuildCreateStampsVoiceState | bot/handlers/guild_handlers.go:33-36 | a voice state not overridden later is cached under the guild, stamped with its ID |
| GuildHandlers.GuildCreateStampsEmoji | bot/handlers/guild_handlers.go:38-41 | an emoji not overridden later is cached under the guild, stamped with its ID |
| GuildHandlers.GuildCreateStampsSticker | bot/handlers/guild_handlers.go:43-46 | a sticker not overridden later is cached under the guild, with its guild ID set |
| GuildHandlers.GuildCreateStampsPresence | bot/handlers/guild_handlers.go:52-56 | a presence not overridden later is cached under the guild, stamped with its ID |
| GuildHandlers.GuildCreateKeepsScheduledEventGuild | bot/handlers/guild_handlers.go:48-50 | a scheduled event is cached as it came, under the guild ID it carries |
| GuildHandlers.GuildCreateKeepsOtherGuilds | bot/handlers/guild_handlers.go:17-56 | the stamped caches of every other guild are left exactly as they were |
| GuildHandlers.GuildCreateKeepsKeyed | bot/handlers/guild_handlers.go:38-46 | every cached emoji and sticker stays under its own guild and ID |
| GuildHandlers.GuildDeleteLeavesNothing | bot/handlers/guild_handlers.go:113-126 | nothing of the guild survives, and its unavailable flag is set exactly when it went unavailable or already was |
| GuildHandlers.OutageThenCreateIsAvailable | bot/handlers/guild_handlers.go:63-95 | after an outage delete, the guild's next create announces it available again, unless it is still unready |
| GuildHandlers.LeaveThenCreateIsJoin | bot/handlers/guild_handlers.go:63-95 | after a leave, the guild's next create is a join, unless it was unready or already unavailable |
| MessageHandlers.DeleteEvents | bot/handlers/message_handler.go:110-141 | MessageDelete, then exactly one of DMMessageDelete or GuildMessageDelete, chosen by the event's guild ID |
| MessageHandlers.CreateEvents | bot/handlers/message_handler.go:24-54 | MessageCreate, then DMMessageCreate exactly when the message has no guild ID, and GuildMessageCreate with that guild otherwise |
| MessageHandlers.UpdateEvents | bot/handlers/message_handler.go:63-94 | MessageUpdate with the old message, then the DM variant exactly when there is no guild ID, and the guild variant otherwise |
| MessageHandlers.HandleMessageCreate | bot/handlers/message_handler.go:12-55 | an ephemeral message changes nothing and dispatches nothing; otherwise it is stored, a cached guild message channel takes it as last message, and MessageCreate is followed by the DM or guild variant |
| MessageHandlers.HandleMessageUpdate | bot/handlers/message_handler.go:57-95 | the previously cached message, or the zero message, is reported as the old one before it is overwritten |
| MessageHandlers.DeleteMessage | bot/handlers/message_handler.go:107-142 | drops exactly the (channel, message) entry and dispatches DeleteEvents with the removed message |
| MessageHandlers.HandleMessageDelete | bot/handlers/message_handler.go:97-99 | drops exactly the (channel, message) entry of the event and dispatches DeleteEvents with the message that was cached, or the zero message |
| MessageHandlers.HandleMessageDeleteBulk | bot/handlers/message_handler.go:101-105 | every ID goes through the single delete, in list order |
| MessageHandlers.CreateRecordsLastMessage | bot/handlers/message_handler.go:18-22 | a create on a cached text or voice channel makes the new message that channel's last message |
| MessageHandlers.CreateElsewhereKeepsChannels | bot/handlers/message_handler.go:18-22 | a create whose channel is not a cached guild message channel leaves the channels alone |
| MessageHandlers.BulkRemovedExactly | bot/handlers/message_handler.go:101-105 | a bulk delete removes exactly the listed IDs of its channel |
| MessageHandlers.BulkDeleteEventsLength | bot/handlers/message_handler.go:101-105 | two events per listed ID |
| MessageHandlers.BulkDeleteEventsAt | bot/handlers/message_handler.go:101-142 | with distinct IDs, the events for the i-th ID are the single delete's, carrying the message cached before the bulk delete began |
| MessageHandlers.BulkLastStillCached | bot/handlers/message_handler.go:101-105 | with distinct IDs, the earlier deletes leave the last ID's message in place |
| MessageHandlers.UpdateThenDeleteReportsUpdate | bot/handlers/message_handler.go:57-142 | a message that is updated and then deleted is reported by the delete as the updated message |
| ChannelHandlers.HandleChannelCreate | bot/handlers/channel_handler.go:12-23 | the channel is cached under its ID and GuildChannelCreate is dispatched |
| ChannelHandlers.HandleChannelUpdate | bot/handlers/channel_handler.go:25-38 | the channel cached before, if any, is reported as the old one, and the new channel is cached |
| ChannelHandlers.HandleChannelDelete | bot/handlers/channel_handler.go:40-51 | the channel is removed by ID, and the event carries the payload's channel |
| ChannelHandlers.HandleChannelPinsUpdate | bot/handlers/channel_handler.go:53-78 | without a guild ID only DMChannelPinsUpdate goes out and the cache is untouched; otherwise a cached guild message channel reports its old timestamp and is written back with the new one |
| ChannelHandlers.PinsUpdateRecordsTimestamp | bot/handlers/channel_handler.go:63-68 | on a cached text channel the new timestamp is recorded and reported as the old one by the next update; a voice channel keeps none |
| ChannelHandlers.PinsUpdateElsewhere | bot/handlers/channel_handler.go:63-76 | for a channel that is not a cached guild message channel, nothing is written and the old timestamp is nil |
| ChannelHandlers.CreateThenUpdateReportsCreated | bot/handlers/channel_handler.go:12-38 | an update after a create of the same channel reports the created channel as the old one |
| TokenHelper.IDFromTokenParsesFirstPiece | internal/tokenhelper/tokenhelper.go:12-23 | the invalid-token branch is never taken, and the result, value or parse error, is the parse of the first piece |
| TokenHelper.IDFromTokenPrefix | internal/tokenhelper/tokenhelper.go:13-18 | only the text before the first '.' matters |
| TokenHelper.IDFromTokenWhole | internal/tokenhelper/tokenhelper.go:13-18 | a token without '.' is parsed whole |
| TokenHelper.IDFromTokenRoundTrip | internal/tokenhelper/tokenhelper.go:12-23 | a token built from an application ID and any secret yields that ID |
| WebhookClient.New | webhook/webhook_client.go:20-31 | the ID and the token are stored as given |
| WebhookClient.NewWithURL | webhook/webhook_client.go:34-52 | a URL error comes back wrapped; any segment count other than 3 is ErrInvalidWebhookURL; an unparseable ID segment gives the parse error; otherwise the client has the second segment's ID and the third segment as token |
| WebhookClient.NewWithURLRoundTrip | webhook/webhook_client.go:34-52 | a path "/first/id/token" with non-empty, slash-free segments builds the client with that ID and token, whatever the first segment is |
| GatewayConfig.DefaultState | gateway/gateway_config.go:9-21 | LargeThreshold 50, no compression, the given URL, shard 0 of 1, auto-reconnect on, raw events off, the no-op identify limiter, and no session, sequence, rate limiter, rate-limiter options or presence |
| GatewayConfig.Config.constructor | gateway/gateway_config.go:9-21 | the fields hold DefaultState |
| GatewayConfig.Config.ApplyOpt | gateway/gateway_config.go:78-235 | one option writes its field as ApplyOptTo says, and nothing else |
| GatewayConfig.Config.RunOpt | gateway/gateway_config.go:78-235 | the option's closure, run on a copy of the fields, gives ApplyOptTo |
| GatewayConfig.Config.RunConnectionOpt | gateway/gateway_config.go:78-150 | the default, logger, dialer, threshold, compression, URL, shard, session and sequence closures each give ApplyOptTo |
| GatewayConfig.Config.RunSessionOpt | gateway/gateway_config.go:152-235 | the reconnect, raw-event, rate-limiter, identify-limiter, presence, OS, browser, device and close-handler closures each give ApplyOptTo |
| GatewayConfig.Config.BuildPresence | gateway/gateway_config.go:194-202 | a fresh presence record with each option applied in order |
| GatewayConfig.Config.Apply | gateway/gateway_config.go:67-75 | the options in list order, then the gateway's log attributes, then a default rate limiter from the accumulated options if none was set |
| GatewayConfig.OptLeavesOtherFields | gateway/gateway_config.go:78-235 | an option leaves every field other than the one it writes as it was |
| GatewayConfig.LastSetterWins | gateway/gateway_config.go:67-70 | after an option, later options that do not write the same field leave it as that option set it |
| GatewayConfig.AppliedHasRateLimiter | gateway/gateway_config.go:72-74 | apply always leaves a rate limiter: the one the options set, else one built from the accumulated options |
| GatewayConfig.AppliedLoggerAttrs | gateway/gateway_config.go:71 | the gateway's log attributes are added once, after every option, with the final shard ID and count |
| GatewayConfig.RateLimiterConfigOptsOrder | gateway/gateway_config.go:173-184 | WithRateLimiterConfigOpts appends and WithDefaultRateLimiterConfigOpts prepends to the accumulated options |
| GatewayConfig.DefaultRateLimiterUsesAccumulatedOpts | gateway/gateway_config.go:67-75 | with no rate limiter set, a default config gets a new rate limiter with exactly the accumulated options |
| GatewayConfig.ResumeFieldsPresent | gateway/gateway_config.go:137-149 | WithSessionID and WithSequence make the resume fields present with the given values |
| GatewayConfig.PresenceOptsStartFresh | gateway/gateway_config.go:194-202 | WithPresenceOpts builds a fresh presence, so what was there before plays no part |
| RestApplications.ToQueryValues | rest/applications.go:35-59 | both exclusion flags always; sku_ids exactly when there are SKU IDs; user_id, before, after, limit and guild_id each exactly when non-zero, with their values; no other name |
| RestApplications.ZeroParamsGiveFlagsOnly | rest/applications.go:35-59 | the zero params give just the two exclusion flags, both false |
| OAuth2Client.CheckSession | oauth2/client.go:178-186 | an expired session is refused as expired whatever its scopes; a live one without the scope is refused for that scope; otherwise there is no error |
| OAuth2Client.Expired | oauth2/client.go:45-47 | a session is expired exactly when now is after its expiration, so it is still live at that instant |
| OAuth2Client.HasScope | oauth2/client.go:182 | a scope is held exactly when it is one of the granted ones, so nothing is held without a grant |
| OAuth2Client.ScopedCall | oauth2/client.go:136-176 | a session CheckSession refuses gives that error without calling REST; otherwise the call is made with the access token; a success implies a live session with the scope |
| OAuth2Client.ExpiredNeverReportsScope | oauth2/client.go:14-25 | the expiry text is never a missing-scope text, so the two refusals are told apart |
| OAuth2Client.NewSession | oauth2/client.go:188-196 | tokens, scopes and type are copied, and the session expires ExpiresIn seconds after now |
| OAuth2Client.NewSessionLifetime | oauth2/client.go:45-47 | a new session is expired at a later time exactly when that time is past now plus its lifetime |
| OAuth2Client.StateController.NewState | oauth2/client.go:84 | records the redirect URI under the new state and leaves every other state alone |
| OAuth2Client.StateController.UseState | oauth2/client.go:109 | returns the state's redirect URI, or "" for an unknown state, and forgets the state |
| OAuth2Client.AuthorizationQuery | oauth2/client.go:85-104 | client_id, redirect_uri, response_type=code, scope and state always; permissions, guild_id, disable_guild_select and integration_type exactly when set; no other name |
| OAuth2Client.GenerateAuthorizationURLState | oauth2/client.go:83-106 | a new state is issued for the redirect URI and the query carries it |
| OAuth2Client.StateRedeemsRedirectURI | oauth2/client.go:83-119 | the state in an authorization query starts a session with that query's redirect URI |
| OAuth2Client.StartSession | oauth2/client.go:108-119 | an unknown state is ErrStateNotFound and makes no token request; otherwise the token is requested with the state's redirect URI and a success makes a new session |
| OAuth2Client.StateIsSingleUse | oauth2/client.go:108-119 | a state can start a session at most once |
| OAuth2Client.RefreshSession | oauth2/client.go:121-127 | a successful refresh gives the new token's session; an error is passed through |
| OAuth2Client.VerifySession | oauth2/client.go:129-134 | a live session is returned unchanged; only an expired one is refreshed |
| OAuth2Client.VerifiedSessionIsLive | oauth2/client.go:129-134 | a refreshed session is the new token's, and is live when its lifetime is positive |
| OAuth2Client.GetUser | oauth2/client.go:136-141 | succeeds only for a live session with the identify scope; a refused session gives the CheckSession error |
| OAuth2Client.GetMember | oauth2/client.go:143-148 | succeeds only for a live session with guilds.members.read |
| OAuth2Client.GetGuilds | oauth2/client.go:150-155 | succeeds only for a live session with the guilds scope; a refused session gives the CheckSession error and any other goes to the REST call with its access token |
| OAuth2Client.GetConnections | oauth2/client.go:157-162 | succeeds only for a live session with connections |
| OAuth2Client.GetApplicationRoleConnection | oauth2/client.go:164-169 | succeeds only for a live session with role_connections.write |
| OAuth2Client.UpdateApplicationRoleConnection | oauth2/client.go:171-176 | succeeds only for a live session with role_connections.write |
| OAuth2Client.IdentifyOnlyCannotListGuilds | oauth2/client.go:136-155 | a session with only the identify scope can read the user but not the guilds, whatever the REST layer would answer |
| BotClient.Shard | bot/client.go:86-96 | the single gateway whenever there is one, whatever the guild; otherwise the shard manager's shard, or ErrShardNotFound when it has none; with neither, ErrNoGatewayOrShardManager |
| BotClient.ToShard | bot/client.go:98-131 | a failed shard lookup is the result; otherwise the command goes to the looked-up shard with the given opcode and payload |
| BotClient.UpdateVoiceState | bot/client.go:98-104 | the payload goes unchanged to the guild's shard; a failed lookup sends nothing and is the result |
| BotClient.RequestMembers | bot/client.go:106-117 | a request by user IDs with neither a query nor a limit, sent to the guild's shard |
| BotClient.RequestMembersWithQuery | bot/client.go:119-131 | a request by query, always with both the query and the limit and with no user IDs |
| BotClient.SingleGatewayServesEveryGuild | bot/client.go:86-88 | with a gateway, two guilds' requests reach the same connection |
| BotClient.ApplyPresenceFromOpts | bot/client.go:152-161 | the options applied in order to the gateway's current presence, or to an empty record when there is none; a held presence is overwritten with the result, and a gateway without one keeps none |
| BotClient.SetPresence | bot/client.go:133-139 | needs the single gateway, even when a shard manager exists, sends it the new presence and leaves that presence stored in the gateway when it held one |
| BotClient.SetPresenceForShard | bot/client.go:141-150 | needs a shard manager and a shard with that ID, sends that shard its new presence and leaves it stored in the shard when the shard held one |
| BotClient.SetPresenceTwice | bot/client.go:133-161 | two SetPresence calls on a gateway holding a presence send the held presence with both option lists applied in order; without one, the second sends only its own options on an empty record |
| BotClient.ID | bot/client.go:48-53 | the cached self user's ID, or 0 when none is cached |
| BotClient.Close | bot/client.go:33-46 | closes the voice manager, the gateway, the REST client and the shard manager, each exactly when present, in that order |
| BotClient.OpenGateway | bot/client.go:63-68 | ErrNoGateway exactly when there is no gateway; otherwise the configured gateway is the one opened |
| BotClient.OpenShardManager | bot/client.go:74-80 | ErrNoShardManager without a shard manager, otherwise no error |

## Left out

- The WebSocket engine: connecting, heartbeating, resuming, the identify limiter and the shard
  manager's internals. The gateway and shard-manager lookups are parameters.
- JSON encoding and decoding. A payload is the record its alias type decodes to, or the decode error.
- `time.Now`, `url.Parse`, `snowflake.ID.Time` and the REST endpoints are parameters. So are the
  OAuth2 state generator and the token endpoint calls.
- The `Cache`, `GroupedCache` and `Set` implementations are taken to be finite maps and sets. The
  put-time cache policies and flag filtering they apply are not modelled. Go ranges over maps in an
  unspecified order, so the model collects entries in an order chosen by the verifier.
- The generic fields every bot event carries (client, sequence number, shard ID), and the single
  event value the presence handler reuses between dispatches. Events are recorded as values.
- The member-chunking goroutine of the guild create handler. Only whether it is started is modelled.
- The pass-through handlers (ban, invite, webhooks, integrations, user update) and the handler
  registration table.
- The integration create and update decoders in gateway/gateway_events.go.
- The URL and CDN formatting helpers: emoji and icon URLs, channel `Mention` and
  `CreatedAt`, and `fluxer.AuthorizeURL`, `JoinScopes` and `JoinSnowflakes`. The entitlement and
  authorization queries keep scope and snowflake lists as lists rather than as joined text.
- The `ToBody` multipart builders and `WithContentf` string formatting of the update builders.
- The permission constants live in a file that is not part of this model. Administrator, View
  Channel and Read Message History take their conventional bit positions 3, 10 and 16.
- The texts of the `fluxer` package errors (`ErrInvalidBotToken`, `ErrNoGateway`, and the
  others) are not part of this model. Each error carries its Go name.
- `fluxer.HasScope` is modelled as list membership.
- `Logger`, `Dialer`, the close handler and custom rate limiters are opaque tokens. The
  `CompressionType` constants are not shown, so the model has just the two values.
- The OAuth2 `StateController` implementation is not part of this model. The model's controller
  forgets a state once it is used.
- `GenerateAuthorizationURL` without state, and `RefreshSession`'s REST call, are parameters.
- The outcome of the gateway `Send` calls in the bot client is not modelled. The presence the
  options write back into the gateway or shard is modelled.
- DispatchUpdates, DispatchChanges and HandlePresenceUpdate use the corrected isActivityUpdated
  (see "## Findings"). The handler as written is DispatchUpdatesAsWritten with
  UpdateEventsAsWritten and ActivityEventsAsWritten, and ResentPresenceUpdatesEveryActivityAsWritten
  shows the events it sends when a cached presence is re-sent.
- MessageUpdates.MessageUpdate.WithEmbed treats slices as values. Go's `slices.Insert` without a
  clone can shift the receiver's own embeds in place when their backing array has room, so an
  update the caller still holds may change. That aliasing is not modelled.
- MessageUpdates.MessageUpdate.AddFiles, MessageUpdates.MessageUpdate.AddFile,
  WebhookMessageUpdates.WebhookMessageUpdate.AddFiles and WebhookMessageUpdates.WebhookMessageUpdate.AddFile
  treat slices as values. Two updates built from one base by `append` may share a backing array
  in Go; that aliasing is not modelled.
- GatewayMessages.WithActivity is a pure option. The Go closure changes the activity it captured
  each time it runs, so a non-idempotent activity option piles up when the same presence option is
  applied more than once. That is not modelled.
- Permissions.RoleOverwriteFor and Permissions.MemberOverwriteFor take the first matching overwrite.
  The body of `PermissionOverwrites.Role` and `PermissionOverwrites.Member` is not part of this
  model, so first-match lookup is assumed.
- CachePolicies.AnyPolicy and CachePolicies.AllPolicies have no nil policies. In Go the first
  non-nil policy is the seed, and a nil policy after the seed panics when the combination is called.
- `Caches.Caches.AudioChannelMembers` requires a voice channel, which is what the Go signature's
  `GuildAudioChannel` type guarantees.
- `GuildEmojisUpdateHandler.HandleGuildEmojisUpdate`, `GuildStickersUpdateHandler.HandleGuildStickersUpdate`
  and the guild create lemmas require the cached emojis and stickers to sit under their own
  guild and ID, which every cache write in the model keeps.
- The index parameters of `WithEmbed`, `RemoveEmbed`, `UpdateFile` and `RemoveFile` are `nat`.
  Go panics inside `slices.Insert`/`slices.Delete` or on `m.Files[i]` for a negative index.
- The default config's comment says compression is on, but the code sets it off and leaves the
  OS, browser and device empty. The model follows the code.
- Messages.Unquote rejects the `\a`, `\v`, `\xXX`, octal and `\UXXXXXXXX` escapes, which
  `strconv.Unquote` accepts. No valid JSON string contains them, and its input here is JSON text.
- Emojis.EmojiMention and Emojis.AnimatedEmojiMention assume the formats `<:name:id>` and
  `<a:name:id>`. The mention helpers that `emoji.go` calls are not part of this model.
- GatewayMessages.UnmarshalMessageData and GatewayMessages.Message.UnmarshalJSON return the inner
  decode error. The "failed to unmarshal message data" prefix and the raw payload that Go's
  `fmt.Errorf` adds are not modelled; error texts in the model are approximate.
- Go strings are byte sequences. The model uses sequences of Dafny characters for names, tokens,
  query values and decimal text, so byte-level effects such as UTF-8 encoding are not modelled.

## Findings

| source | as written | input that shows it | evidently intended | confidence | as-written member | corrected member |
|---|---|---|---|---|---|---|
| bot/handlers/presence_update_handler.go:119-134 | isActivityUpdated reports a change when `CreatedAt.Equal` holds and when `slices.Equal(Buttons)` holds, both not negated | any activity compared with itself, for example a re-sent presence with one unchanged activity | report an update only when some field differs | high (not executed) | PresenceUpdateHandler.ActivityUpdatedAsWrittenAgainstItself, PresenceUpdateHandler.DispatchUpdatesAsWritten, PresenceUpdateHandler.ResentPresenceUpdatesEveryActivityAsWritten | PresenceUpdateHandler.IsActivityUpdated, PresenceUpdateHandler.UpdateEventsAgainstItself |
| bot/handlers/presence_update_handler.go:144 | compareActivityTimestampsPtr returns true when both start and end are equal | two present timestamp pairs with the same start and end | return true when the start or the end differs | high (not executed) | PresenceUpdateHandler.CompareTimestampsAsWrittenFlagsEqual | PresenceUpdateHandler.CompareActivityTimestampsPtr |
