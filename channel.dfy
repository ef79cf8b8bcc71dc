// fluxer/channel.go: the channel sum type, its type codes and flags, the per-variant
// accessors, decoding by type code, encoding, and the variant-selective updaters.
module Channels {
  import opened Wrappers
  import opened Snowflakes
  import opened GoTime
  import opened BitFlags
  import opened Permissions
  import opened Entities
  import opened ChannelsRaw
  import opened GoStrings

  datatype ChannelType = GuildText | DM | GuildVoice | GroupDM | GuildCategory | GuildLinkExtended

  /** The numeric ChannelType codes: only the link-extended type lies outside 0 to 4. */
  function TypeCode(t: ChannelType): (r: int)
    ensures 0 <= r <= 4 <==> t != GuildLinkExtended
    ensures t == GuildLinkExtended ==> r == 998
  {
    match t
    case GuildText => 0
    case DM => 1
    case GuildVoice => 2
    case GroupDM => 3
    case GuildCategory => 4
    case GuildLinkExtended => 998
  }

  /** The variant a type code selects; any other code selects none. */
  function TypeFromCode(code: int): (r: Option<ChannelType>)
    ensures r.Some? ==> TypeCode(r.value) == code
    ensures r.None? <==> code !in {0, 1, 2, 3, 4, 998}
  {
    if code == 0 then Some(GuildText)
    else if code == 1 then Some(DM)
    else if code == 2 then Some(GuildVoice)
    else if code == 3 then Some(GroupDM)
    else if code == 4 then Some(GuildCategory)
    else if code == 998 then Some(GuildLinkExtended)
    else None
  }

  /** Codes are distinct, so the table can be read both ways. */
  lemma TypeCodeRoundTrip(t: ChannelType)
    ensures TypeFromCode(TypeCode(t)) == Some(t)
  {
  }

  // ChannelFlags
  const ChannelFlagPinned: Flags := 1 << 1
  const ChannelFlagRequireTag: Flags := 1 << 4
  const ChannelFlagHideMediaDownloadOptions: Flags := 1 << 15
  const ChannelFlagsNone: Flags := 0

  /** The named flags are distinct single bits. */
  lemma ChannelFlagValues()
    ensures ChannelFlagPinned == 2 && ChannelFlagRequireTag == 16 && ChannelFlagHideMediaDownloadOptions == 0x8000
    ensures ChannelFlagPinned & ChannelFlagRequireTag == 0
    ensures ChannelFlagPinned & ChannelFlagHideMediaDownloadOptions == 0
    ensures ChannelFlagRequireTag & ChannelFlagHideMediaDownloadOptions == 0
  {
  }

  // AutoArchiveDuration and VideoQualityMode constants
  const AutoArchiveDuration1h: int := 60
  const AutoArchiveDuration24h: int := 1440
  const AutoArchiveDuration3d: int := 4320
  const AutoArchiveDuration1w: int := 10080
  const VideoQualityModeAuto: int := 1
  const VideoQualityModeFull: int := 2

  // One record per Go struct type; Channel is the interface value holding one of them.

  datatype GuildTextChannel = GuildTextChannel(
    id: ID, guildID: ID, position: int, permissionOverwrites: Overwrites, name: string,
    topic: Option<string>, nsfw: bool, lastMessageID: Option<ID>, rateLimitPerUser: int,
    parentID: Option<ID>, lastPinTimestamp: Option<Time>, defaultAutoArchiveDuration: int)

  datatype DMChannel = DMChannel(id: ID, lastMessageID: Option<ID>, recipients: seq<User>, lastPinTimestamp: Option<Time>)

  datatype GroupDMChannel = GroupDMChannel(id: ID, ownerID: Option<ID>, name: string, lastPinTimestamp: Option<Time>,
                                           lastMessageID: Option<ID>, icon: Option<string>)

  datatype GuildVoiceChannel = GuildVoiceChannel(
    id: ID, guildID: ID, position: int, permissionOverwrites: Overwrites, name: string,
    bitrate: int, userLimit: int, parentID: Option<ID>, rtcRegion: string, videoQualityMode: int,
    lastMessageID: Option<ID>, nsfw: bool, rateLimitPerUser: int)

  datatype GuildCategoryChannel = GuildCategoryChannel(id: ID, guildID: ID, position: int, permissionOverwrites: Overwrites, name: string)

  datatype GuildLinkExtendedChannel = GuildLinkExtendedChannel(
    id: ID, guildID: ID, position: int, permissionOverwrites: Overwrites, name: string, url: string, parentID: Option<ID>)

  datatype Channel =
    | AsGuildText(guildText: GuildTextChannel)
    | AsDM(dm: DMChannel)
    | AsGroupDM(groupDM: GroupDMChannel)
    | AsGuildVoice(guildVoice: GuildVoiceChannel)
    | AsGuildCategory(guildCategory: GuildCategoryChannel)
    | AsGuildLinkExtended(guildLinkExtended: GuildLinkExtendedChannel)
  {
    /** Type(): the variant's own code. */
    function Type(): (t: ChannelType)
      ensures AsGuildText? <==> t == GuildText
      ensures AsDM? <==> t == DM
      ensures AsGroupDM? <==> t == GroupDM
      ensures AsGuildVoice? <==> t == GuildVoice
      ensures AsGuildCategory? <==> t == GuildCategory
      ensures AsGuildLinkExtended? <==> t == GuildLinkExtended
    {
      match this
      case AsGuildText(_) => GuildText
      case AsDM(_) => DM
      case AsGroupDM(_) => GroupDM
      case AsGuildVoice(_) => GuildVoice
      case AsGuildCategory(_) => GuildCategory
      case AsGuildLinkExtended(_) => GuildLinkExtended
    }

    /** ID(): every variant reports its own record's ID. */
    function ID(): (r: ID)
      ensures AsGuildText? ==> r == guildText.id
      ensures AsDM? ==> r == dm.id
      ensures AsGroupDM? ==> r == groupDM.id
      ensures AsGuildVoice? ==> r == guildVoice.id
      ensures AsGuildCategory? ==> r == guildCategory.id
      ensures AsGuildLinkExtended? ==> r == guildLinkExtended.id
    {
      match this
      case AsGuildText(c) => c.id
      case AsDM(c) => c.id
      case AsGroupDM(c) => c.id
      case AsGuildVoice(c) => c.id
      case AsGuildCategory(c) => c.id
      case AsGuildLinkExtended(c) => c.id
    }

    /** The variants that implement GuildChannel: every type but the two private ones. */
    function IsGuildChannel(): (r: bool)
      ensures r <==> Type() !in {DM, GroupDM}
    {
      AsGuildText? || AsGuildVoice? || AsGuildCategory? || AsGuildLinkExtended?
    }

    /**
     * The variants that implement MessageChannel. The link-extended channel declares the
     * marker methods but lacks LastMessageID and LastPinTimestamp, so it is not one.
     */
    function IsMessageChannel(): (r: bool)
      ensures r <==> Type() !in {GuildCategory, GuildLinkExtended}
    {
      AsGuildText? || AsDM? || AsGroupDM? || AsGuildVoice?
    }

    /** GuildMessageChannel: text and voice channels only, the channels that are both guild and message channels. */
    function IsGuildMessageChannel(): (r: bool)
      ensures r <==> IsGuildChannel() && IsMessageChannel()
    {
      AsGuildText? || AsGuildVoice?
    }

    /** GuildAudioChannel: voice channels only. */
    predicate IsGuildAudioChannel()
    {
      AsGuildVoice?
    }

    /** Name(): a DM channel is named after its first recipient (and panics without one). */
    function Name(): (n: string)
      requires AsDM? ==> |dm.recipients| > 0
      ensures AsDM? ==> n == dm.recipients[0].username
    {
      match this
      case AsGuildText(c) => c.name
      case AsDM(c) => c.recipients[0].username
      case AsGroupDM(c) => c.name
      case AsGuildVoice(c) => c.name
      case AsGuildCategory(c) => c.name
      case AsGuildLinkExtended(c) => c.name
    }

    /** GuildID(): each guild channel reports its own record's guild ID. */
    function GuildID(): (r: ID)
      requires IsGuildChannel()
      ensures AsGuildText? ==> r == guildText.guildID
      ensures AsGuildVoice? ==> r == guildVoice.guildID
      ensures AsGuildCategory? ==> r == guildCategory.guildID
      ensures AsGuildLinkExtended? ==> r == guildLinkExtended.guildID
    {
      match this
      case AsGuildText(c) => c.guildID
      case AsGuildVoice(c) => c.guildID
      case AsGuildCategory(c) => c.guildID
      case AsGuildLinkExtended(c) => c.guildID
    }

    /** PermissionOverwrites(): each guild channel reports its own record's overwrites. */
    function PermissionOverwrites(): (r: Overwrites)
      requires IsGuildChannel()
      ensures AsGuildText? ==> r == guildText.permissionOverwrites
      ensures AsGuildVoice? ==> r == guildVoice.permissionOverwrites
      ensures AsGuildCategory? ==> r == guildCategory.permissionOverwrites
      ensures AsGuildLinkExtended? ==> r == guildLinkExtended.permissionOverwrites
    {
      match this
      case AsGuildText(c) => c.permissionOverwrites
      case AsGuildVoice(c) => c.permissionOverwrites
      case AsGuildCategory(c) => c.permissionOverwrites
      case AsGuildLinkExtended(c) => c.permissionOverwrites
    }

    /** Position(): each guild channel reports its own record's position. */
    function Position(): (r: int)
      requires IsGuildChannel()
      ensures AsGuildText? ==> r == guildText.position
      ensures AsGuildVoice? ==> r == guildVoice.position
      ensures AsGuildCategory? ==> r == guildCategory.position
      ensures AsGuildLinkExtended? ==> r == guildLinkExtended.position
    {
      match this
      case AsGuildText(c) => c.position
      case AsGuildVoice(c) => c.position
      case AsGuildCategory(c) => c.position
      case AsGuildLinkExtended(c) => c.position
    }

    /** ParentID(): a category channel never has a parent. */
    function ParentID(): (r: Option<ID>)
      requires IsGuildChannel()
      ensures AsGuildCategory? ==> r.None?
    {
      match this
      case AsGuildText(c) => c.parentID
      case AsGuildVoice(c) => c.parentID
      case AsGuildCategory(c) => None
      case AsGuildLinkExtended(c) => c.parentID
    }

    /** LastMessageID(): each message channel reports its own record's last message ID. */
    function LastMessageID(): (r: Option<ID>)
      requires IsMessageChannel()
      ensures AsGuildText? ==> r == guildText.lastMessageID
      ensures AsDM? ==> r == dm.lastMessageID
      ensures AsGroupDM? ==> r == groupDM.lastMessageID
      ensures AsGuildVoice? ==> r == guildVoice.lastMessageID
    {
      match this
      case AsGuildText(c) => c.lastMessageID
      case AsDM(c) => c.lastMessageID
      case AsGroupDM(c) => c.lastMessageID
      case AsGuildVoice(c) => c.lastMessageID
    }

    /** LastPinTimestamp(): always nil for a voice channel. */
    function LastPinTimestamp(): (r: Option<Time>)
      requires IsMessageChannel()
      ensures AsGuildVoice? ==> r.None?
    {
      match this
      case AsGuildText(c) => c.lastPinTimestamp
      case AsDM(c) => c.lastPinTimestamp
      case AsGroupDM(c) => c.lastPinTimestamp
      case AsGuildVoice(c) => None
    }

    /** Topic(): always nil for a voice channel. */
    function Topic(): (r: Option<string>)
      requires IsGuildMessageChannel()
      ensures AsGuildVoice? ==> r.None?
    {
      match this
      case AsGuildText(c) => c.topic
      case AsGuildVoice(c) => None
    }

    /** NSFW(): text and voice channels report their own record's flag. */
    function NSFW(): (r: bool)
      requires IsGuildMessageChannel()
      ensures AsGuildText? ==> r == guildText.nsfw
      ensures AsGuildVoice? ==> r == guildVoice.nsfw
    {
      match this
      case AsGuildText(c) => c.nsfw
      case AsGuildVoice(c) => c.nsfw
    }

    /** DefaultAutoArchiveDuration(): always 0 for a voice channel. */
    function DefaultAutoArchiveDuration(): (r: int)
      requires IsGuildMessageChannel()
      ensures AsGuildVoice? ==> r == 0
    {
      match this
      case AsGuildText(c) => c.defaultAutoArchiveDuration
      case AsGuildVoice(c) => 0
    }

    /** RateLimitPerUser(): text and voice channels report their own record's slow-mode rate. */
    function RateLimitPerUser(): (r: int)
      requires IsGuildMessageChannel()
      ensures AsGuildText? ==> r == guildText.rateLimitPerUser
      ensures AsGuildVoice? ==> r == guildVoice.rateLimitPerUser
    {
      match this
      case AsGuildText(c) => c.rateLimitPerUser
      case AsGuildVoice(c) => c.rateLimitPerUser
    }
  }

  /**
   * channelString: the type code's decimal text and a ':' lead, the ID's decimal text in
   * parentheses closes, and the name sits between them.
   */
  function ChannelString(c: Channel): (s: string)
    requires c.AsDM? ==> |c.dm.recipients| > 0
    ensures var t := IntString(TypeCode(c.Type()));
            |s| > |t| && s[..|t|] == t && s[|t|] == ':'
    ensures var id := IDString(c.ID());
            |s| >= |id| + 2 && s[|s| - |id| - 2] == '(' && s[|s| - |id| - 1..|s| - 1] == id && s[|s| - 1] == ')'
    ensures var t := IntString(TypeCode(c.Type()));
            var id := IDString(c.ID());
            |s| == |t| + 1 + |c.Name()| + 1 + |id| + 1 && s[|t| + 1..|t| + 1 + |c.Name()|] == c.Name()
  {
    IntString(TypeCode(c.Type())) + ":" + c.Name() + "(" + IDString(c.ID()) + ")"
  }

  /** Whatever the name holds, the text before the first ':' of channelString gives back the channel's type. */
  lemma ChannelStringType(c: Channel)
    requires c.AsDM? ==> |c.dm.recipients| > 0
    ensures var head := Split(ChannelString(c), ':')[0];
            AllDigits(head) && TypeFromCode(DigitsValue(head)) == Some(c.Type())
  {
    var t := IntString(TypeCode(c.Type()));
    forall i | 0 <= i < |t| ensures t[i] != ':' {
      assert IsDigit(t[i]);
    }
    assert ChannelString(c) == t + [':'] + (c.Name() + "(" + IDString(c.ID()) + ")");
    SplitAtFirst(t, ':', c.Name() + "(" + IDString(c.ID()) + ")");
    TypeCodeRoundTrip(c.Type());
  }

  // Decoding: the type code chooses the variant; each variant reads its raw record.

  function FromGuildTextRecord(r: GuildTextRecord): Channel
  {
    AsGuildText(GuildTextChannel(r.id, r.guildID, r.position, r.permissionOverwrites, r.name, r.topic, r.nsfw,
                     r.lastMessageID, r.rateLimitPerUser, r.parentID, r.lastPinTimestamp,
                     r.defaultAutoArchiveDuration))
  }

  function FromDMRecord(r: DMRecord): Channel
  {
    AsDM(DMChannel(r.id, r.lastMessageID, r.recipients, r.lastPinTimestamp))
  }

  function FromGroupDMRecord(r: GroupDMRecord): Channel
  {
    AsGroupDM(GroupDMChannel(r.id, r.ownerID, r.name, r.lastPinTimestamp, r.lastMessageID, r.icon))
  }

  function FromGuildVoiceRecord(r: GuildVoiceRecord): Channel
  {
    AsGuildVoice(GuildVoiceChannel(r.id, r.guildID, r.position, r.permissionOverwrites, r.name, r.bitrate,
                      r.userLimit, r.parentID, r.rtcRegion, r.videoQualityMode, r.lastMessageID,
                      r.nsfw, r.rateLimitPerUser))
  }

  function FromGuildCategoryRecord(r: GuildCategoryRecord): Channel
  {
    AsGuildCategory(GuildCategoryChannel(r.id, r.guildID, r.position, r.permissionOverwrites, r.name))
  }

  function FromGuildLinkExtendedRecord(r: GuildLinkExtendedRecord): Channel
  {
    AsGuildLinkExtended(GuildLinkExtendedChannel(r.id, r.guildID, r.position, r.permissionOverwrites, r.name, r.url, r.parentID))
  }

  /**
   * The getters of a decoded channel report what the payload carried: a guild channel its guild
   * ID, position and parsed overwrites, a message channel its last message ID, and a text or
   * voice channel its NSFW flag and slow-mode rate.
   */
  lemma DecodedChannelAccessors(obj: ChannelObject)
    requires DecodeChannel(obj).Ok?
    ensures var c := DecodeChannel(obj).value;
            c.IsGuildChannel() ==>
              && c.GuildID() == obj.guildID && c.Position() == obj.position
              && c.PermissionOverwrites() == ParsedOverwrites(obj.permissionOverwrites)
    ensures var c := DecodeChannel(obj).value;
            c.IsMessageChannel() ==> c.LastMessageID() == obj.lastMessageID
    ensures var c := DecodeChannel(obj).value;
            c.IsGuildMessageChannel() ==> c.NSFW() == obj.nsfw && c.RateLimitPerUser() == obj.rateLimitPerUser
  {
  }

  /** The channel a payload decodes to, or the unknown-type error. */
  function DecodeChannel(obj: ChannelObject): (r: Result<Channel>)
    ensures r.Ok? <==> TypeFromCode(obj.typeCode).Some?
    ensures r.Ok? ==> TypeCode(r.value.Type()) == obj.typeCode && r.value.ID() == obj.id
  {
    match TypeFromCode(obj.typeCode)
    case None => Err("unknown channel with type " + IntString(obj.typeCode) + " received")
    case Some(GuildText) =>
      Ok(FromGuildTextRecord(AliasGuildText(obj).(permissionOverwrites := ParsedOverwrites(obj.permissionOverwrites))))
    case Some(DM) => Ok(FromDMRecord(DecodeDM(obj)))
    case Some(GuildVoice) =>
      Ok(FromGuildVoiceRecord(AliasGuildVoice(obj).(permissionOverwrites := ParsedOverwrites(obj.permissionOverwrites))))
    case Some(GroupDM) => Ok(FromGroupDMRecord(DecodeGroupDM(obj)))
    case Some(GuildCategory) =>
      Ok(FromGuildCategoryRecord(AliasGuildCategory(obj).(permissionOverwrites := ParsedOverwrites(obj.permissionOverwrites))))
    case Some(GuildLinkExtended) =>
      Ok(FromGuildLinkExtendedRecord(AliasGuildLinkExtended(obj).(permissionOverwrites := ParsedOverwrites(obj.permissionOverwrites))))
  }

  /** UnmarshalChannel: holds the decoded channel (nil until a decode succeeds). */
  class UnmarshalChannel {
    var channel: Option<Channel>

    constructor ()
      ensures channel.None?
    {
      channel := None;
    }

    /**
     * UnmarshalJSON: a payload that cannot be read at all, or whose type code is
     * unknown, is an error and leaves the previous channel in place.
     */
    method UnmarshalJSON(data: Result<ChannelObject>) returns (err: Option<string>)
      modifies this
      ensures data.Err? ==> err == Some(data.error) && channel == old(channel)
      ensures data.Ok? && DecodeChannel(data.value).Err? ==> err.Some? && channel == old(channel)
      ensures data.Ok? && DecodeChannel(data.value).Ok? ==> err.None? && channel == Some(DecodeChannel(data.value).value)
    {
      if data.Err? {
        return Some(data.error);
      }
      var obj := data.value;
      var decoded: Channel;
      match TypeFromCode(obj.typeCode) {
        case None =>
          return Some("unknown channel with type " + IntString(obj.typeCode) + " received");
        case Some(GuildText) =>
          var v := UnmarshalGuildText(obj);
          decoded := FromGuildTextRecord(v);
        case Some(DM) =>
          decoded := FromDMRecord(DecodeDM(obj));
        case Some(GuildVoice) =>
          var v := UnmarshalGuildVoice(obj);
          decoded := FromGuildVoiceRecord(v);
        case Some(GroupDM) =>
          decoded := FromGroupDMRecord(DecodeGroupDM(obj));
        case Some(GuildCategory) =>
          var v := UnmarshalGuildCategory(obj);
          decoded := FromGuildCategoryRecord(v);
        case Some(GuildLinkExtended) =>
          var v := UnmarshalGuildLinkExtended(obj);
          decoded := FromGuildLinkExtendedRecord(v);
      }
      channel := Some(decoded);
      err := None;
    }
  }

  // Encoding: MarshalJSON writes every field of the variant and its own type code.

  function ToObject(c: Channel): ChannelObject
  {
    var base := ChannelObject(c.ID(), TypeCode(c.Type()), 0, 0, [], "", None, false, None, 0, None, None, 0, [], None, None, 0, 0, "", 0, "");
    match c
    case AsGuildText(t) =>
      base.(guildID := t.guildID, position := t.position, permissionOverwrites := WrapOverwrites(t.permissionOverwrites),
            name := t.name, topic := t.topic, nsfw := t.nsfw, lastMessageID := t.lastMessageID,
            rateLimitPerUser := t.rateLimitPerUser, parentID := t.parentID, lastPinTimestamp := t.lastPinTimestamp,
            defaultAutoArchiveDuration := t.defaultAutoArchiveDuration)
    case AsDM(d) =>
      base.(lastMessageID := d.lastMessageID, recipients := d.recipients, lastPinTimestamp := d.lastPinTimestamp)
    case AsGroupDM(g) =>
      base.(ownerID := g.ownerID, name := g.name, lastPinTimestamp := g.lastPinTimestamp,
            lastMessageID := g.lastMessageID, icon := g.icon)
    case AsGuildVoice(v) =>
      base.(guildID := v.guildID, position := v.position, permissionOverwrites := WrapOverwrites(v.permissionOverwrites),
            name := v.name, bitrate := v.bitrate, userLimit := v.userLimit, parentID := v.parentID,
            rtcRegion := v.rtcRegion, videoQualityMode := v.videoQualityMode, lastMessageID := v.lastMessageID,
            nsfw := v.nsfw, rateLimitPerUser := v.rateLimitPerUser)
    case AsGuildCategory(k) =>
      base.(guildID := k.guildID, position := k.position, permissionOverwrites := WrapOverwrites(k.permissionOverwrites),
            name := k.name)
    case AsGuildLinkExtended(l) =>
      base.(guildID := l.guildID, position := l.position, permissionOverwrites := WrapOverwrites(l.permissionOverwrites),
            name := l.name, url := l.url, parentID := l.parentID)
  }

  /** The overwrite list as it comes back from the wire: an empty non-nil list is read back as nil. */
  function WireOverwrites(ows: Overwrites): Overwrites
  {
    if ows.GetOr([]) == [] then None else ows
  }

  function NormalizeOverwrites(c: Channel): Channel
  {
    match c
    case AsGuildText(t) => AsGuildText(t.(permissionOverwrites := WireOverwrites(t.permissionOverwrites)))
    case AsGuildVoice(v) => AsGuildVoice(v.(permissionOverwrites := WireOverwrites(v.permissionOverwrites)))
    case AsGuildCategory(k) => AsGuildCategory(k.(permissionOverwrites := WireOverwrites(k.permissionOverwrites)))
    case AsGuildLinkExtended(l) => AsGuildLinkExtended(l.(permissionOverwrites := WireOverwrites(l.permissionOverwrites)))
    case _ => c
  }

  /** Every channel survives encode-then-decode, up to the nil/empty overwrite list. */
  lemma DecodeEncode(c: Channel)
    ensures DecodeChannel(ToObject(c)) == Ok(NormalizeOverwrites(c))
  {
    if c.IsGuildChannel() {
      ParseWrapped(c.PermissionOverwrites());
    }
  }

  /** MarshalJSON of a text channel: every field, with the type code of a text channel. */
  function ToGuildTextRecord(c: GuildTextChannel): GuildTextRecord
  {
    GuildTextRecord(c.id, TypeCode(GuildText), c.guildID, c.position, c.permissionOverwrites, c.name,
                    c.topic, c.nsfw, c.lastMessageID, c.rateLimitPerUser, c.parentID,
                    c.lastPinTimestamp, c.defaultAutoArchiveDuration)
  }

  /** Unmarshal then Marshal of a text channel reproduces the raw record, with its type fixed to GuildText. */
  lemma GuildTextRecordRoundTrip(r: GuildTextRecord)
    ensures ToGuildTextRecord(FromGuildTextRecord(r).guildText) == r.(typeCode := TypeCode(GuildText))
  {
  }

  /** The fluxer.GuildChannel interface: the channels that belong to a guild. */
  type GuildChannel = c: Channel | c.IsGuildChannel()
    witness AsGuildCategory(GuildCategoryChannel(0, 0, 0, None, ""))

  // The variant-selective updaters (type switches on value copies).

  /** ApplyGuildIDToChannel: text, voice and category channels take the guild ID; a link-extended channel is returned unchanged. */
  function ApplyGuildIDToChannel(c: Channel, guildID: ID): (r: Channel)
    requires c.IsGuildChannel()
    ensures r.IsGuildChannel() && r.Type() == c.Type() && r.ID() == c.ID()
    ensures c.AsGuildText? ==> r.guildText == c.guildText.(guildID := guildID)
    ensures c.AsGuildVoice? ==> r.guildVoice == c.guildVoice.(guildID := guildID)
    ensures c.AsGuildCategory? ==> r.guildCategory == c.guildCategory.(guildID := guildID)
    ensures c.AsGuildLinkExtended? ==> r == c
    ensures !c.AsGuildLinkExtended? ==> r.GuildID() == guildID
  {
    match c
    case AsGuildText(t) => AsGuildText(t.(guildID := guildID))
    case AsGuildVoice(v) => AsGuildVoice(v.(guildID := guildID))
    case AsGuildCategory(k) => AsGuildCategory(k.(guildID := guildID))
    case AsGuildLinkExtended(_) => c
  }

  /** ApplyLastMessageIDToChannel: both guild message channel variants take the new last-message ID. */
  function ApplyLastMessageIDToChannel(c: Channel, lastMessageID: ID): (r: Channel)
    requires c.IsGuildMessageChannel()
    ensures r.IsGuildMessageChannel() && r.Type() == c.Type() && r.ID() == c.ID()
    ensures c.AsGuildText? ==> r.guildText == c.guildText.(lastMessageID := Some(lastMessageID))
    ensures c.AsGuildVoice? ==> r.guildVoice == c.guildVoice.(lastMessageID := Some(lastMessageID))
    ensures r.LastMessageID() == Some(lastMessageID)
  {
    match c
    case AsGuildText(t) => AsGuildText(t.(lastMessageID := Some(lastMessageID)))
    case AsGuildVoice(v) => AsGuildVoice(v.(lastMessageID := Some(lastMessageID)))
  }

  /** ApplyLastPinTimestampToChannel: only a text channel takes the timestamp; a voice channel is unchanged. */
  function ApplyLastPinTimestampToChannel(c: Channel, lastPinTimestamp: Option<Time>): (r: Channel)
    requires c.IsGuildMessageChannel()
    ensures r.IsGuildMessageChannel() && r.Type() == c.Type() && r.ID() == c.ID()
    ensures c.AsGuildText? ==> r.guildText == c.guildText.(lastPinTimestamp := lastPinTimestamp)
    ensures c.AsGuildText? ==> r.LastPinTimestamp() == lastPinTimestamp
    ensures c.AsGuildVoice? ==> r == c
  {
    match c
    case AsGuildText(t) => AsGuildText(t.(lastPinTimestamp := lastPinTimestamp))
    case AsGuildVoice(_) => c
  }
}
