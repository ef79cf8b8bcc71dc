// The entity records the cache stores and the event handlers compare: users, guilds,
// roles, members, voice states, stickers, scheduled events, presences and activities.
// Only the fields the modelled code reads or writes are kept.
module Entities {
  import opened Wrappers
  import opened Snowflakes
  import opened GoTime
  import opened Permissions
  import opened Emojis

  datatype User = User(id: ID, username: string)

  /** The bot's own user as returned by the OAuth2 "current user" endpoint. */
  datatype OAuth2User = OAuth2User(user: User)
  {
    function ID(): ID { user.id }
  }

  /** The zero OAuth2User{}. */
  const ZeroOAuth2User := OAuth2User(User(0, ""))

  datatype Guild = Guild(id: ID, name: string, ownerID: ID)

  const ZeroGuild := Guild(0, "", 0)

  datatype Role = Role(id: ID, name: string, position: int, permissions: Permissions, guildID: ID)

  datatype Member = Member(
    guildID: ID,
    user: User,
    nick: Option<string>,
    roleIDs: seq<ID>,
    communicationDisabledUntil: Option<Time>)

  const ZeroMember := Member(0, User(0, ""), None, [], None)

  datatype VoiceState = VoiceState(channelID: Option<ID>, guildID: ID, userID: ID, sessionID: string)

  datatype Sticker = Sticker(id: ID, name: string, description: string, tags: seq<string>, animated: bool, guildID: Option<ID>)

  datatype ScheduledEvent = ScheduledEvent(id: ID, guildID: ID, name: string)

  /** fluxer.OnlineStatus is a string type; its zero value is "". */
  type OnlineStatus = string

  datatype ClientStatus = ClientStatus(desktop: OnlineStatus, mobile: OnlineStatus, web: OnlineStatus)

  const ZeroClientStatus := ClientStatus("", "", "")

  /** Activity types. */
  type ActivityType = int
  const ActivityTypeGame: ActivityType := 0
  const ActivityTypeStreaming: ActivityType := 1
  const ActivityTypeListening: ActivityType := 2
  const ActivityTypeWatching: ActivityType := 3
  const ActivityTypeCustom: ActivityType := 4
  const ActivityTypeCompeting: ActivityType := 5

  datatype ActivityTimestamps = ActivityTimestamps(start: Time, end: Time)

  datatype ActivityParty = ActivityParty(id: string, size: (int, int))

  datatype ActivityAssets = ActivityAssets(
    largeText: string, largeImage: string, largeURL: string,
    smallText: string, smallImage: string, smallURL: string)

  datatype ActivitySecrets = ActivitySecrets(join: string, spectate: string, matchSecret: string)

  datatype Activity = Activity(
    id: string,
    name: string,
    activityType: ActivityType,
    url: Option<string>,
    createdAt: Time,
    timestamps: Option<ActivityTimestamps>,
    syncID: Option<string>,
    applicationID: ID,
    statusDisplayType: Option<int>,
    details: Option<string>,
    detailsURL: Option<string>,
    state: Option<string>,
    stateURL: Option<string>,
    emoji: Option<PartialEmoji>,
    party: Option<ActivityParty>,
    assets: Option<ActivityAssets>,
    secrets: Option<ActivitySecrets>,
    instance: Option<bool>,
    flags: int,
    buttons: seq<string>)

  /**
   * The zero fluxer.Activity{} with a name and a type filled in: no ID, URL, state, creation
   * time or buttons.
   */
  function NewActivity(name: string, activityType: ActivityType): (r: Activity)
    ensures r.name == name && r.activityType == activityType
    ensures r.id == "" && r.url.None? && r.state.None? && r.createdAt == Zero && r.buttons == []
  {
    Activity("", name, activityType, None, Zero, None, None, 0, None, None, None, None, None,
             None, None, None, None, None, 0, [])
  }

  datatype Presence = Presence(
    userID: ID,
    guildID: ID,
    status: OnlineStatus,
    activities: seq<Activity>,
    clientStatus: ClientStatus)
}
