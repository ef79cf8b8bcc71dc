// gateway/gateway_events.go: the decode-time fix-ups of the gateway event payloads.
// As in the envelope decoder, JSON itself is abstract: a payload arrives as the record the
// alias type decodes to (or the decode error), and the model states what each custom
// UnmarshalJSON / MarshalJSON does on top of that.
module GatewayEvents {
  import opened Wrappers
  import opened Snowflakes
  import opened GoTime
  import opened Entities
  import opened Emojis
  import opened ChannelsRaw
  import opened Channels
  import opened GatewayMessages

  // ---------------------------------------------------------------------------------------
  // Rate limited

  datatype RateLimitedMetadata =
    | MetaRequestGuildMembers(guildID: ID, nonce: string)
    | MetaUnknown

  /** The first decoding stage: opcode, retry_after and the still-raw meta payload. */
  datatype RateLimitedRecord = RateLimitedRecord(opcode: Opcode, retryAfter: real, meta: string)

  /** The decode of a raw meta payload into RateLimitedMetadataRequestGuildMembers's fields. */
  type RequestGuildMembersMetaDecoder = string -> Result<(ID, string)>

  /**
   * The metadata an opcode selects: only RequestGuildMembers reads the payload (and can fail);
   * every other opcode gives an empty Unknown without looking at it.
   */
  function DecodeRateLimitedMeta(rec: RateLimitedRecord, decodeMeta: RequestGuildMembersMetaDecoder): (r: Result<RateLimitedMetadata>)
    ensures rec.opcode != OpcodeRequestGuildMembers ==> r == Ok(MetaUnknown)
    ensures rec.opcode == OpcodeRequestGuildMembers ==> (r.Ok? <==> decodeMeta(rec.meta).Ok?)
    ensures r.Ok? && rec.opcode == OpcodeRequestGuildMembers ==>
      r.value == MetaRequestGuildMembers(decodeMeta(rec.meta).value.0, decodeMeta(rec.meta).value.1)
    ensures r.Err? ==> r.error == "failed to deserialize metadata payload for opcode " + IntString(rec.opcode)
                                  + ": " + decodeMeta(rec.meta).error
  {
    if rec.opcode == OpcodeRequestGuildMembers then
      match decodeMeta(rec.meta)
      case Ok(v) => Ok(MetaRequestGuildMembers(v.0, v.1))
      case Err(e) => Err("failed to deserialize metadata payload for opcode " + IntString(rec.opcode) + ": " + e)
    else
      Ok(MetaUnknown)
  }

  /** The metadata is RequestGuildMembers metadata exactly when the opcode is RequestGuildMembers. */
  lemma RateLimitedMetaMatchesOpcode(rec: RateLimitedRecord, decodeMeta: RequestGuildMembersMetaDecoder)
    requires DecodeRateLimitedMeta(rec, decodeMeta).Ok?
    ensures DecodeRateLimitedMeta(rec, decodeMeta).value.MetaRequestGuildMembers? <==> rec.opcode == OpcodeRequestGuildMembers
    ensures DecodeRateLimitedMeta(rec, decodeMeta).value.MetaUnknown? <==> rec.opcode != OpcodeRequestGuildMembers
  {
  }

  /** EventRateLimited; Meta is a nil interface until a decode succeeds. */
  class EventRateLimited {
    var opcode: Opcode
    var retryAfter: real
    var meta: Option<RateLimitedMetadata>

    constructor ()
      ensures opcode == 0 && retryAfter == 0.0 && meta.None?
    {
      opcode, retryAfter, meta := 0, 0.0, None;
    }

    /** UnmarshalJSON: all three fields are written on success; on any error nothing changes. */
    method UnmarshalJSON(data: Result<RateLimitedRecord>, decodeMeta: RequestGuildMembersMetaDecoder)
      returns (err: Option<string>)
      modifies this
      ensures err.None? <==> data.Ok? && DecodeRateLimitedMeta(data.value, decodeMeta).Ok?
      ensures err.None? ==> opcode == data.value.opcode && retryAfter == data.value.retryAfter
                            && meta == Some(DecodeRateLimitedMeta(data.value, decodeMeta).value)
      ensures err.Some? ==> opcode == old(opcode) && retryAfter == old(retryAfter) && meta == old(meta)
    {
      if data.Err? {
        return Some(data.error);
      }
      var event := data.value;
      var m := DecodeRateLimitedMeta(event, decodeMeta);
      if m.Err? {
        return Some(m.error);
      }
      opcode := event.opcode;
      retryAfter := event.retryAfter;
      meta := Some(m.value);
      err := None;
    }
  }

  // ---------------------------------------------------------------------------------------
  // Channel create / update / delete

  /** Whether the type assertion to GuildChannel after a successful channel decode succeeds. */
  predicate DecodesToGuildChannel(obj: ChannelObject)
  {
    DecodeChannel(obj).Ok? ==> DecodeChannel(obj).value.IsGuildChannel()
  }

  /** The payloads on which the channel events panic are exactly the DM and group DM ones. */
  lemma GuildChannelEventPanics(obj: ChannelObject)
    ensures !DecodesToGuildChannel(obj) <==> obj.typeCode == 1 || obj.typeCode == 3
  {
    var r := DecodeChannel(obj);
    if r.Ok? {
      var t := r.value.Type();
      assert TypeCode(t) == obj.typeCode;
      assert r.value.IsGuildChannel() <==> t != DM && t != GroupDM;
    }
  }

  /**
   * EventChannelCreate / EventChannelUpdate / EventChannelDelete UnmarshalJSON: decode through
   * UnmarshalChannel, then narrow to a guild channel. The narrowing is an unchecked type
   * assertion, so a DM or group DM payload is outside the precondition.
   */
  function DecodeGuildChannelEvent(data: Result<ChannelObject>): (r: Result<Channel>)
    requires data.Ok? ==> DecodesToGuildChannel(data.value)
    ensures r.Ok? <==> data.Ok? && TypeFromCode(data.value.typeCode).Some?
    ensures r.Ok? ==> r.value.IsGuildChannel() && TypeCode(r.value.Type()) == data.value.typeCode
                      && r.value.ID() == data.value.id
    ensures data.Err? ==> r == Err(data.error)
  {
    match data
    case Err(e) => Err(e)
    case Ok(obj) => DecodeChannel(obj)
  }

  // ---------------------------------------------------------------------------------------
  // Message reaction add

  datatype MessageReactionAdd = MessageReactionAdd(
    userID: ID,
    channelID: ID,
    messageID: ID,
    guildID: Option<ID>,
    member: Option<Member>,
    emoji: PartialEmoji,
    messageAuthorID: Option<ID>,
    burstColors: seq<string>,
    burst: bool,
    reactionType: int)

  /** EventMessageReactionAdd.UnmarshalJSON fix-up: a present member takes a present guild ID. */
  function StampReactionMember(v: MessageReactionAdd): (e: MessageReactionAdd)
    ensures e.member.Some? <==> v.member.Some?
    ensures e.(member := v.member) == v
    ensures v.member.Some? && v.guildID.Some? ==> e.member.value == v.member.value.(guildID := v.guildID.value)
    ensures v.member.None? || v.guildID.None? ==> e == v
  {
    if v.member.Some? && v.guildID.Some? then
      v.(member := Some(v.member.value.(guildID := v.guildID.value)))
    else
      v
  }

  /** After the fix-up the member agrees with the event's guild, and stamping again changes nothing. */
  lemma StampReactionMemberAgrees(v: MessageReactionAdd)
    ensures var e := StampReactionMember(v);
            e.member.Some? && e.guildID.Some? ==> e.member.value.guildID == e.guildID.value
    ensures StampReactionMember(StampReactionMember(v)) == StampReactionMember(v)
  {
  }

  // ---------------------------------------------------------------------------------------
  // Guild emojis update

  datatype GuildEmojisUpdate = GuildEmojisUpdate(guildID: ID, emojis: seq<Emoji>)

  /** Every emoji of the list carrying the given guild ID, all else kept. */
  function StampEmojis(emojis: seq<Emoji>, guildID: ID): (r: seq<Emoji>)
    ensures |r| == |emojis|
    ensures forall i :: 0 <= i < |r| ==> r[i].guildID == guildID && r[i].partial == emojis[i].partial
  {
    seq(|emojis|, i requires 0 <= i < |emojis| => emojis[i].(guildID := guildID))
  }

  /** EventGuildEmojisUpdate.UnmarshalJSON: decode, then stamp each emoji of the decoded slice in place. */
  method UnmarshalGuildEmojisUpdate(data: Result<GuildEmojisUpdate>) returns (r: Result<GuildEmojisUpdate>)
    ensures data.Err? ==> r == Err(data.error)
    ensures data.Ok? ==> r == Ok(GuildEmojisUpdate(data.value.guildID, StampEmojis(data.value.emojis, data.value.guildID)))
  {
    if data.Err? {
      return Err(data.error);
    }
    var v := data.value;
    var emojis := new Emoji[|v.emojis|](i requires 0 <= i < |v.emojis| => v.emojis[i]);
    for i := 0 to emojis.Length
      invariant emojis[..i] == StampEmojis(v.emojis[..i], v.guildID)
      invariant emojis[i..] == v.emojis[i..]
    {
      emojis[i] := emojis[i].(guildID := v.guildID);
    }
    assert v.emojis[..emojis.Length] == v.emojis;
    assert emojis[..] == emojis[..emojis.Length];
    r := Ok(GuildEmojisUpdate(v.guildID, emojis[..]));
  }

  /** Stamping is idempotent and only the guild ID of each emoji changes. */
  lemma StampEmojisTwice(emojis: seq<Emoji>, guildID: ID)
    ensures StampEmojis(StampEmojis(emojis, guildID), guildID) == StampEmojis(emojis, guildID)
  {
  }

  datatype GuildStickersUpdate = GuildStickersUpdate(guildID: ID, stickers: seq<Sticker>)

  // ---------------------------------------------------------------------------------------
  // Guild role create / update

  /** EventGuildRoleCreate and EventGuildRoleUpdate have the same shape and the same fix-ups. */
  datatype RoleEvent = RoleEvent(guildID: ID, role: Role)

  /** Decoding stamps the role with the event's guild ID. */
  function DecodeRoleEvent(v: RoleEvent): (e: RoleEvent)
    ensures e.guildID == v.guildID && e.role.guildID == v.guildID
    ensures e.role.(guildID := v.role.guildID) == v.role
  {
    v.(role := v.role.(guildID := v.guildID))
  }

  /** Encoding first copies the role's guild ID into the event; the role itself is written unchanged. */
  function EncodeRoleEvent(e: RoleEvent): (w: RoleEvent)
    ensures w.role == e.role && w.guildID == e.role.guildID
  {
    e.(guildID := e.role.guildID)
  }

  /** After encoding, decoding gives back the encoded event, whose two guild IDs agree. */
  lemma RoleEventEncodeDecode(e: RoleEvent)
    ensures DecodeRoleEvent(EncodeRoleEvent(e)) == EncodeRoleEvent(e)
    ensures DecodeRoleEvent(EncodeRoleEvent(e)).guildID == DecodeRoleEvent(EncodeRoleEvent(e)).role.guildID
    ensures e.guildID == e.role.guildID ==> DecodeRoleEvent(EncodeRoleEvent(e)) == e
  {
  }

  /** A decoded event encodes to the same record and decodes back to itself. */
  lemma RoleEventDecodeEncode(v: RoleEvent)
    ensures EncodeRoleEvent(DecodeRoleEvent(v)) == DecodeRoleEvent(v)
    ensures DecodeRoleEvent(EncodeRoleEvent(DecodeRoleEvent(v))) == DecodeRoleEvent(v)
  {
  }

  /** The pointer receiver of the role events' UnmarshalJSON and MarshalJSON. */
  class GuildRoleEvent {
    var guildID: ID
    var role: Role

    constructor ()
      ensures guildID == 0 && role == Role(0, "", 0, 0, 0)
    {
      guildID, role := 0, Role(0, "", 0, 0, 0);
    }

    /** UnmarshalJSON: *e is the decoded record with the role stamped; a decode error changes nothing. */
    method UnmarshalJSON(data: Result<RoleEvent>) returns (err: Option<string>)
      modifies this
      ensures data.Err? ==> err == Some(data.error) && guildID == old(guildID) && role == old(role)
      ensures data.Ok? ==> err.None? && RoleEvent(guildID, role) == DecodeRoleEvent(data.value)
    {
      if data.Err? {
        return Some(data.error);
      }
      guildID := data.value.guildID;
      role := data.value.role;
      role := role.(guildID := guildID);
      err := None;
    }

    /** MarshalJSON: overwrites the receiver's guild ID with the role's before encoding it. */
    method MarshalJSON() returns (w: RoleEvent)
      modifies this
      ensures role == old(role) && guildID == old(role).guildID
      ensures w == EncodeRoleEvent(RoleEvent(old(guildID), old(role)))
    {
      guildID := role.guildID;
      w := RoleEvent(guildID, role);
    }
  }

  // ---------------------------------------------------------------------------------------
  // Typing start

  datatype TypingStart = TypingStart(
    channelID: ID,
    guildID: Option<ID>,
    userID: ID,
    timestamp: Time,
    member: Option<Member>,
    user: User)

  /** The wire form: the timestamp is a count of Unix seconds. */
  datatype TypingStartRecord = TypingStartRecord(
    channelID: ID,
    guildID: Option<ID>,
    userID: ID,
    timestampSeconds: int,
    member: Option<Member>,
    user: User)

  /** EventTypingStart.UnmarshalJSON: every field copied, the timestamp read as whole Unix seconds. */
  function DecodeTypingStart(v: TypingStartRecord): (e: TypingStart)
    ensures e.timestamp == UnixSeconds(v.timestampSeconds)
    ensures (e.timestamp - Zero) % NanosPerSecond == 0
    ensures e.channelID == v.channelID && e.guildID == v.guildID && e.userID == v.userID
            && e.member == v.member && e.user == v.user
  {
    UnixSecondsWhole(v.timestampSeconds);
    TypingStart(v.channelID, v.guildID, v.userID, UnixSeconds(v.timestampSeconds), v.member, v.user)
  }

  /** Distinct second counts give distinct timestamps, so the seconds field is recoverable. */
  lemma TypingStartSecondsRecoverable(v: TypingStartRecord, w: TypingStartRecord)
    requires DecodeTypingStart(v).timestamp == DecodeTypingStart(w).timestamp
    ensures v.timestampSeconds == w.timestampSeconds
  {
    UnixSecondsWhole(v.timestampSeconds);
    UnixSecondsWhole(w.timestampSeconds);
  }

  // ---------------------------------------------------------------------------------------
  // Payloads the cache handlers consume

  datatype MessageDelete = MessageDelete(id: ID, channelID: ID, guildID: Option<ID>)

  datatype MessageDeleteBulk = MessageDeleteBulk(ids: seq<ID>, channelID: ID, guildID: Option<ID>)

  datatype ChannelPinsUpdate = ChannelPinsUpdate(guildID: Option<ID>, channelID: ID, lastPinTimestamp: Option<Time>)

  /** EventGuildDelete embeds fluxer.UnavailableGuild. */
  datatype GuildDelete = GuildDelete(id: ID, unavailable: bool)

  /** EventGuildCreate embeds fluxer.GatewayGuild: the guild and everything the gateway sends with it. */
  datatype GatewayGuild = GatewayGuild(
    guild: Guild,
    channels: seq<GuildChannel>,
    roles: seq<Role>,
    members: seq<Member>,
    voiceStates: seq<VoiceState>,
    emojis: seq<Emoji>,
    stickers: seq<Sticker>,
    scheduledEvents: seq<ScheduledEvent>,
    presences: seq<Presence>)
  {
    function ID(): ID { guild.id }
  }
}
