// fluxer/channels_raw.go: the raw wire records of each channel variant and the decode
// fix-up that replaces the permission-overwrite list with its parsed form.
//
// JSON itself is abstracted: a channel payload is a ChannelObject holding the value of
// every key a channel variant may read (a missing key holds its zero value), and each
// raw record takes the keys of its own variant from it.
module ChannelsRaw {
  import opened Wrappers
  import opened Snowflakes
  import opened GoTime
  import opened Permissions
  import opened Entities

  /** UnmarshalPermissionOverwrite: the wire wrapper around one decoded overwrite. */
  datatype UnmarshalPermissionOverwrite = UnmarshalPermissionOverwrite(overwrite: PermissionOverwrite)

  /** A decoded channel payload: the value of every key any channel variant reads. */
  datatype ChannelObject = ChannelObject(
    id: ID,
    typeCode: int,
    guildID: ID,
    position: int,
    permissionOverwrites: seq<UnmarshalPermissionOverwrite>,
    name: string,
    topic: Option<string>,
    nsfw: bool,
    lastMessageID: Option<ID>,
    rateLimitPerUser: int,
    parentID: Option<ID>,
    lastPinTimestamp: Option<Time>,
    defaultAutoArchiveDuration: int,
    recipients: seq<User>,
    ownerID: Option<ID>,
    icon: Option<string>,
    bitrate: int,
    userLimit: int,
    rtcRegion: string,
    videoQualityMode: int,
    url: string)

  /** A nil slice is None; a non-nil slice (possibly empty) is Some. */
  type Overwrites = Option<seq<PermissionOverwrite>>

  datatype DMRecord = DMRecord(id: ID, typeCode: int, lastMessageID: Option<ID>, recipients: seq<User>, lastPinTimestamp: Option<Time>)

  datatype GroupDMRecord = GroupDMRecord(id: ID, typeCode: int, ownerID: Option<ID>, name: string,
                                         lastPinTimestamp: Option<Time>, lastMessageID: Option<ID>, icon: Option<string>)

  datatype GuildTextRecord = GuildTextRecord(
    id: ID, typeCode: int, guildID: ID, position: int, permissionOverwrites: Overwrites,
    name: string, topic: Option<string>, nsfw: bool, lastMessageID: Option<ID>,
    rateLimitPerUser: int, parentID: Option<ID>, lastPinTimestamp: Option<Time>,
    defaultAutoArchiveDuration: int)

  datatype GuildLinkExtendedRecord = GuildLinkExtendedRecord(
    id: ID, typeCode: int, guildID: ID, position: int, permissionOverwrites: Overwrites,
    name: string, url: string, parentID: Option<ID>)

  datatype GuildCategoryRecord = GuildCategoryRecord(
    id: ID, typeCode: int, guildID: ID, position: int, permissionOverwrites: Overwrites, name: string)

  datatype GuildVoiceRecord = GuildVoiceRecord(
    id: ID, typeCode: int, guildID: ID, position: int, permissionOverwrites: Overwrites,
    name: string, bitrate: int, userLimit: int, parentID: Option<ID>, rtcRegion: string,
    videoQualityMode: int, lastMessageID: Option<ID>, nsfw: bool, rateLimitPerUser: int)

  /** The overwrites carried by the wrappers, in order. */
  function Unwrap(overwrites: seq<UnmarshalPermissionOverwrite>): seq<PermissionOverwrite>
    decreases |overwrites|
  {
    if overwrites == [] then [] else [overwrites[0].overwrite] + Unwrap(overwrites[1..])
  }

  /** parsePermissionOverwrites as a value: nil for an empty list, else the unwrapped list. */
  function ParsedOverwrites(overwrites: seq<UnmarshalPermissionOverwrite>): Overwrites
  {
    if |overwrites| == 0 then None else Some(Unwrap(overwrites))
  }

  /** Unwrapping keeps the length and takes element i from wrapper i, so order is preserved. */
  lemma {:induction false} UnwrapAt(overwrites: seq<UnmarshalPermissionOverwrite>)
    ensures |Unwrap(overwrites)| == |overwrites|
    ensures forall i :: 0 <= i < |overwrites| ==> Unwrap(overwrites)[i] == overwrites[i].overwrite
    decreases |overwrites|
  {
    if overwrites != [] {
      UnwrapAt(overwrites[1..]);
    }
  }

  /** The parsed list is nil exactly for empty input, and otherwise matches the input element by element. */
  lemma ParsedOverwritesShape(overwrites: seq<UnmarshalPermissionOverwrite>)
    ensures ParsedOverwrites(overwrites).None? <==> |overwrites| == 0
    ensures ParsedOverwrites(overwrites).Some? ==>
              |ParsedOverwrites(overwrites).value| == |overwrites| &&
              forall i :: 0 <= i < |overwrites| ==> ParsedOverwrites(overwrites).value[i] == overwrites[i].overwrite
  {
    UnwrapAt(overwrites);
  }

  /** parsePermissionOverwrites: fills a freshly made slice index by index. */
  method ParsePermissionOverwrites(overwrites: seq<UnmarshalPermissionOverwrite>) returns (r: Overwrites)
    ensures r == ParsedOverwrites(overwrites)
  {
    if |overwrites| == 0 {
      return None;
    }
    var permOverwrites := new PermissionOverwrite[|overwrites|];
    var i := 0;
    while i < |overwrites|
      invariant 0 <= i <= |overwrites|
      invariant forall j :: 0 <= j < i ==> permOverwrites[j] == overwrites[j].overwrite
    {
      permOverwrites[i] := overwrites[i].overwrite;
      i := i + 1;
    }
    UnwrapAt(overwrites);
    assert permOverwrites[..] == Unwrap(overwrites);
    r := Some(permOverwrites[..]);
  }

  // The alias decodes: every key of the variant, except that the overwrite key is
  // captured by the outer wrapper field, so the alias's own list stays nil.

  function AliasGuildText(obj: ChannelObject): GuildTextRecord
  {
    GuildTextRecord(obj.id, obj.typeCode, obj.guildID, obj.position, None, obj.name, obj.topic,
                    obj.nsfw, obj.lastMessageID, obj.rateLimitPerUser, obj.parentID,
                    obj.lastPinTimestamp, obj.defaultAutoArchiveDuration)
  }

  function AliasGuildLinkExtended(obj: ChannelObject): GuildLinkExtendedRecord
  {
    GuildLinkExtendedRecord(obj.id, obj.typeCode, obj.guildID, obj.position, None, obj.name, obj.url, obj.parentID)
  }

  function AliasGuildCategory(obj: ChannelObject): GuildCategoryRecord
  {
    GuildCategoryRecord(obj.id, obj.typeCode, obj.guildID, obj.position, None, obj.name)
  }

  function AliasGuildVoice(obj: ChannelObject): GuildVoiceRecord
  {
    GuildVoiceRecord(obj.id, obj.typeCode, obj.guildID, obj.position, None, obj.name, obj.bitrate,
                     obj.userLimit, obj.parentID, obj.rtcRegion, obj.videoQualityMode,
                     obj.lastMessageID, obj.nsfw, obj.rateLimitPerUser)
  }

  function DecodeDM(obj: ChannelObject): DMRecord
  {
    DMRecord(obj.id, obj.typeCode, obj.lastMessageID, obj.recipients, obj.lastPinTimestamp)
  }

  function DecodeGroupDM(obj: ChannelObject): GroupDMRecord
  {
    GroupDMRecord(obj.id, obj.typeCode, obj.ownerID, obj.name, obj.lastPinTimestamp, obj.lastMessageID, obj.icon)
  }

  // guildTextChannel.UnmarshalJSON and its three siblings: the alias record with the
  // overwrite list replaced by the parsed wire list.

  method UnmarshalGuildText(obj: ChannelObject) returns (t: GuildTextRecord)
    ensures t.(permissionOverwrites := None) == AliasGuildText(obj)
    ensures t.permissionOverwrites == ParsedOverwrites(obj.permissionOverwrites)
  {
    t := AliasGuildText(obj);
    var parsed := ParsePermissionOverwrites(obj.permissionOverwrites);
    t := t.(permissionOverwrites := parsed);
  }

  method UnmarshalGuildLinkExtended(obj: ChannelObject) returns (t: GuildLinkExtendedRecord)
    ensures t.(permissionOverwrites := None) == AliasGuildLinkExtended(obj)
    ensures t.permissionOverwrites == ParsedOverwrites(obj.permissionOverwrites)
  {
    t := AliasGuildLinkExtended(obj);
    var parsed := ParsePermissionOverwrites(obj.permissionOverwrites);
    t := t.(permissionOverwrites := parsed);
  }

  method UnmarshalGuildCategory(obj: ChannelObject) returns (t: GuildCategoryRecord)
    ensures t.(permissionOverwrites := None) == AliasGuildCategory(obj)
    ensures t.permissionOverwrites == ParsedOverwrites(obj.permissionOverwrites)
  {
    t := AliasGuildCategory(obj);
    var parsed := ParsePermissionOverwrites(obj.permissionOverwrites);
    t := t.(permissionOverwrites := parsed);
  }

  method UnmarshalGuildVoice(obj: ChannelObject) returns (t: GuildVoiceRecord)
    ensures t.(permissionOverwrites := None) == AliasGuildVoice(obj)
    ensures t.permissionOverwrites == ParsedOverwrites(obj.permissionOverwrites)
  {
    t := AliasGuildVoice(obj);
    var parsed := ParsePermissionOverwrites(obj.permissionOverwrites);
    t := t.(permissionOverwrites := parsed);
  }

  /** The wire form of an overwrite list: nil and empty both encode as no elements. */
  function WrapOverwrites(ows: Overwrites): (r: seq<UnmarshalPermissionOverwrite>)
    ensures |r| == |ows.GetOr([])|
  {
    var s := ows.GetOr([]);
    seq(|s|, i requires 0 <= i < |s| => UnmarshalPermissionOverwrite(s[i]))
  }

  /** Encoding then parsing an overwrite list gives it back, except that an empty non-nil list comes back nil. */
  lemma ParseWrapped(ows: Overwrites)
    ensures ParsedOverwrites(WrapOverwrites(ows)) == (if ows.GetOr([]) == [] then None else ows)
  {
    var w := WrapOverwrites(ows);
    UnwrapAt(w);
    if ows.Some? && ows.value != [] {
      assert Unwrap(w) == ows.value;
    }
  }
}
