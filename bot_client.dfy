// bot/client.go: the bot client's routing of gateway commands to the single gateway or to a shard,
// the presence it sends, its ID from the cached self user, and the order in which Close shuts
// its parts down. A command is modelled as the Send call it ends in; the outcome of the send
// itself belongs to the gateway, which is not part of this model.
module BotClient {
  import opened Wrappers
  import opened Snowflakes
  import opened Entities
  import opened GatewayMessages
  import opened Caches

  // The fluxer package's errors; their texts are not part of this model, so each carries its Go name.
  const ErrNoGateway := "fluxer.ErrNoGateway"
  const ErrNoShardManager := "fluxer.ErrNoShardManager"
  const ErrShardNotFound := "fluxer.ErrShardNotFound"
  const ErrNoGatewayOrShardManager := "fluxer.ErrNoGatewayOrShardManager"

  /**
   * A gateway connection: the shard it serves and the presence it currently holds, if any.
   * Presence() hands out a pointer to that record, so whoever applies options to it changes
   * the gateway's own presence.
   */
  class Gateway {
    const shardID: int
    var presence: Option<PresenceUpdate>

    constructor (shardID: int, presence: Option<PresenceUpdate>)
      ensures this.shardID == shardID && this.presence == presence
    {
      this.shardID := shardID;
      this.presence := presence;
    }
  }

  /**
   * A shard manager, by its two lookups: ShardByGuildID, where None is a nil gateway, and Shard,
   * which finds a shard by its ID among the shards the manager holds.
   */
  datatype ShardManager = ShardManager(shardByGuildID: ID -> Option<Gateway>, shards: map<int, Gateway>)

  /** The parts of a Client that Close shuts down. */
  datatype Component = VoiceManagerPart | GatewayPart | RestPart | ShardManagerPart

  /** Client: a nil interface field is None or false. */
  datatype Client = Client(
    gateway: Option<Gateway>,
    shardManager: Option<ShardManager>,
    hasVoiceManager: bool,
    hasRest: bool,
    caches: Caches)

  /** MessageDataVoiceStateUpdate */
  datatype VoiceStateUpdateData = VoiceStateUpdateData(
    guildID: ID, channelID: Option<ID>, selfMute: bool, selfDeaf: bool, selfVideo: bool, selfStream: bool,
    connectionID: Option<string>, isMobile: bool, latitude: string, longitude: string)

  /** MessageDataRequestGuildMembers */
  datatype RequestGuildMembersData = RequestGuildMembersData(
    guildID: ID, query: Option<string>, limit: Option<int>, presences: bool, userIDs: seq<ID>, nonce: string)

  datatype Payload =
    | VoiceStatePayload(voiceState: VoiceStateUpdateData)
    | RequestGuildMembersPayload(request: RequestGuildMembersData)
    | PresencePayload(presence: PresenceUpdate)

  /** A Send(ctx, op, d) on a gateway. */
  datatype Command = Command(target: Gateway, op: Opcode, d: Payload)

  /**
   * Client.Shard: the single gateway whenever there is one, whatever the guild; otherwise the
   * shard manager's shard for the guild; otherwise an error.
   */
  function Shard(c: Client, guildID: ID): (r: Result<Gateway>)
    ensures c.gateway.Some? ==> r == Ok(c.gateway.value)
    ensures c.gateway.None? && c.shardManager.Some? ==>
              (r == Err(ErrShardNotFound) <==> c.shardManager.value.shardByGuildID(guildID).None?)
              && (r.Ok? ==> Some(r.value) == c.shardManager.value.shardByGuildID(guildID))
    ensures c.gateway.None? && c.shardManager.None? ==> r == Err(ErrNoGatewayOrShardManager)
  {
    if c.gateway.Some? then Ok(c.gateway.value)
    else if c.shardManager.Some? then
      match c.shardManager.value.shardByGuildID(guildID)
      case Some(shard) => Ok(shard)
      case None => Err(ErrShardNotFound)
    else Err(ErrNoGatewayOrShardManager)
  }

  /** A command for the shard of a guild: nothing is sent when the lookup fails, and its error is the result. */
  function ToShard(c: Client, guildID: ID, op: Opcode, d: Payload): (r: Result<Command>)
    ensures Shard(c, guildID).Err? ==> r == Err(Shard(c, guildID).error)
    ensures Shard(c, guildID).Ok? ==> r == Ok(Command(Shard(c, guildID).value, op, d))
  {
    match Shard(c, guildID)
    case Err(e) => Err(e)
    case Ok(shard) => Ok(Command(shard, op, d))
  }

  /** UpdateVoiceState: the payload goes unchanged to the shard of its guild. */
  function UpdateVoiceState(c: Client, data: VoiceStateUpdateData): (r: Result<Command>)
    ensures r.Ok? <==> Shard(c, data.guildID).Ok?
    ensures r.Err? ==> r.error == Shard(c, data.guildID).error
    ensures r.Ok? ==> r.value.op == OpcodeVoiceStateUpdate && r.value.d == VoiceStatePayload(data)
                      && r.value.target == Shard(c, data.guildID).value
  {
    ToShard(c, data.guildID, OpcodeVoiceStateUpdate, VoiceStatePayload(data))
  }

  /** RequestMembers: a request by user IDs, with neither a query nor a limit. */
  function RequestMembers(c: Client, guildID: ID, presence: bool, nonce: string, userIDs: seq<ID>): (r: Result<Command>)
    ensures r.Ok? <==> Shard(c, guildID).Ok?
    ensures r.Err? ==> r.error == Shard(c, guildID).error
    ensures r.Ok? ==> && r.value.op == OpcodeRequestGuildMembers && r.value.target == Shard(c, guildID).value
                      && r.value.d.RequestGuildMembersPayload?
                      && r.value.d.request.query.None? && r.value.d.request.limit.None?
                      && r.value.d.request.guildID == guildID && r.value.d.request.userIDs == userIDs
                      && r.value.d.request.presences == presence && r.value.d.request.nonce == nonce
  {
    ToShard(c, guildID, OpcodeRequestGuildMembers,
            RequestGuildMembersPayload(RequestGuildMembersData(guildID, None, None, presence, userIDs, nonce)))
  }

  /** RequestMembersWithQuery: a request by query, always with both the query and the limit and with no user IDs. */
  function RequestMembersWithQuery(c: Client, guildID: ID, presence: bool, nonce: string, query: string, limit: int): (r: Result<Command>)
    ensures r.Ok? <==> Shard(c, guildID).Ok?
    ensures r.Err? ==> r.error == Shard(c, guildID).error
    ensures r.Ok? ==> && r.value.op == OpcodeRequestGuildMembers && r.value.target == Shard(c, guildID).value
                      && r.value.d.RequestGuildMembersPayload?
                      && r.value.d.request.query == Some(query) && r.value.d.request.limit == Some(limit)
                      && r.value.d.request.guildID == guildID && r.value.d.request.userIDs == []
                      && r.value.d.request.presences == presence && r.value.d.request.nonce == nonce
  {
    ToShard(c, guildID, OpcodeRequestGuildMembers,
            RequestGuildMembersPayload(RequestGuildMembersData(guildID, Some(query), Some(limit), presence, [], nonce)))
  }

  /** With a gateway, every guild's commands go to it, so two guilds' requests reach the same connection. */
  lemma SingleGatewayServesEveryGuild(c: Client, a: VoiceStateUpdateData, b: VoiceStateUpdateData)
    requires c.gateway.Some?
    ensures UpdateVoiceState(c, a).Ok? && UpdateVoiceState(c, b).Ok?
    ensures UpdateVoiceState(c, a).value.target == UpdateVoiceState(c, b).value.target == c.gateway.value
  {
  }

  /**
   * applyPresenceFromOpts: the options applied in order to the gateway's current presence, or to
   * a fresh empty record when it has none. The options write through the pointer Presence()
   * returns, so a held presence ends up as the sent one; a fresh record is not kept.
   */
  method ApplyPresenceFromOpts(g: Gateway, opts: seq<PresenceOpt>) returns (presence: PresenceUpdate)
    modifies g
    ensures presence == ApplyPresenceOpts(old(g.presence).GetOr(EmptyPresenceUpdate), opts)
    ensures g.presence == if old(g.presence).Some? then Some(presence) else None
  {
    var held := g.presence.Some?;
    presence := if held then g.presence.value else EmptyPresenceUpdate;
    ghost var start := presence;
    for i := 0 to |opts|
      invariant presence == ApplyPresenceOpts(start, opts[..i])
      invariant g.presence == if held then Some(presence) else None
    {
      ApplyPresenceOptsAppend(start, opts[..i], [opts[i]]);
      assert opts[..i + 1] == opts[..i] + [opts[i]];
      presence := opts[i](presence);
      if held {
        g.presence := Some(presence);
      }
    }
    assert opts[..|opts|] == opts;
  }

  /** The gateways SetPresence may write: the single gateway, if there is one. */
  function GatewayFrame(c: Client): set<Gateway>
  {
    if c.gateway.Some? then {c.gateway.value} else {}
  }

  /** The gateways SetPresenceForShard may write: the shard with that ID, if there is one. */
  function ShardFrame(c: Client, shardID: int): set<Gateway>
  {
    if c.shardManager.Some? && shardID in c.shardManager.value.shards then {c.shardManager.value.shards[shardID]} else {}
  }

  /** SetPresence: only the single gateway is used, even when a shard manager exists. */
  method SetPresence(c: Client, opts: seq<PresenceOpt>) returns (r: Result<Command>)
    modifies GatewayFrame(c)
    ensures c.gateway.None? ==> r == Err(ErrNoGateway)
    ensures c.gateway.Some? ==>
              var sent := ApplyPresenceOpts(old(c.gateway.value.presence).GetOr(EmptyPresenceUpdate), opts);
              && r == Ok(Command(c.gateway.value, OpcodePresenceUpdate, PresencePayload(sent)))
              && c.gateway.value.presence == if old(c.gateway.value.presence).Some? then Some(sent) else None
  {
    if c.gateway.None? {
      return Err(ErrNoGateway);
    }
    var g := c.gateway.value;
    var presence := ApplyPresenceFromOpts(g, opts);
    r := Ok(Command(g, OpcodePresenceUpdate, PresencePayload(presence)));
  }

  /** SetPresenceForShard: needs a shard manager, then the shard with that ID. */
  method SetPresenceForShard(c: Client, shardID: int, opts: seq<PresenceOpt>) returns (r: Result<Command>)
    modifies ShardFrame(c, shardID)
    ensures c.shardManager.None? ==> r == Err(ErrNoShardManager)
    ensures c.shardManager.Some? && shardID !in c.shardManager.value.shards ==> r == Err(ErrShardNotFound)
    ensures c.shardManager.Some? && shardID in c.shardManager.value.shards ==>
              var g := c.shardManager.value.shards[shardID];
              var held := old(c.shardManager.value.shards[shardID].presence);
              var sent := ApplyPresenceOpts(held.GetOr(EmptyPresenceUpdate), opts);
              && r == Ok(Command(g, OpcodePresenceUpdate, PresencePayload(sent)))
              && g.presence == if held.Some? then Some(sent) else None
  {
    if c.shardManager.None? {
      return Err(ErrNoShardManager);
    }
    if shardID !in c.shardManager.value.shards {
      return Err(ErrShardNotFound);
    }
    var shard := c.shardManager.value.shards[shardID];
    var presence := ApplyPresenceFromOpts(shard, opts);
    r := Ok(Command(shard, OpcodePresenceUpdate, PresencePayload(presence)));
  }

  /**
   * Two SetPresence calls in a row: when the gateway holds a presence, the second call starts
   * from what the first one sent, so the options accumulate; without one, each call starts
   * from a fresh empty record.
   */
  method SetPresenceTwice(c: Client, first: seq<PresenceOpt>, second: seq<PresenceOpt>) returns (r1: Result<Command>, r2: Result<Command>)
    requires c.gateway.Some?
    modifies GatewayFrame(c)
    ensures old(c.gateway.value.presence).Some? ==>
              r2 == Ok(Command(c.gateway.value, OpcodePresenceUpdate,
                               PresencePayload(ApplyPresenceOpts(old(c.gateway.value.presence).value, first + second))))
    ensures old(c.gateway.value.presence).None? ==>
              r2 == Ok(Command(c.gateway.value, OpcodePresenceUpdate, PresencePayload(ApplyPresenceOpts(EmptyPresenceUpdate, second))))
  {
    ghost var start := c.gateway.value.presence;
    r1 := SetPresence(c, first);
    r2 := SetPresence(c, second);
    if start.Some? {
      ApplyPresenceOptsAppend(start.value, first, second);
    }
  }

  /** Client.ID: the cached self user's ID, or 0 when none is cached. */
  method ID(c: Client) returns (id: ID)
    ensures c.caches.selfUser.Some? ==> id == c.caches.selfUser.value.ID()
    ensures c.caches.selfUser.None? ==> id == 0
  {
    var selfUser, ok := c.caches.SelfUser();
    if ok {
      return selfUser.ID();
    }
    return 0;
  }

  /** Client.Close: the voice manager, the gateway, the REST client and the shard manager, each closed iff present, in that order. */
  method Close(c: Client) returns (closed: seq<Component>)
    ensures VoiceManagerPart in closed <==> c.hasVoiceManager
    ensures GatewayPart in closed <==> c.gateway.Some?
    ensures RestPart in closed <==> c.hasRest
    ensures ShardManagerPart in closed <==> c.shardManager.Some?
    ensures forall i, j :: 0 <= i < j < |closed| ==> Rank(closed[i]) < Rank(closed[j])
  {
    closed := [];
    if c.hasVoiceManager {
      closed := closed + [VoiceManagerPart];
    }
    if c.gateway.Some? {
      closed := closed + [GatewayPart];
    }
    if c.hasRest {
      closed := closed + [RestPart];
    }
    if c.shardManager.Some? {
      closed := closed + [ShardManagerPart];
    }
  }

  /** The position of a part in Close's order. */
  function Rank(p: Component): nat
  {
    match p
    case VoiceManagerPart => 0
    case GatewayPart => 1
    case RestPart => 2
    case ShardManagerPart => 3
  }

  /** OpenGateway: an error without a gateway; otherwise the gateway's own Open, which is not part of this model. */
  function OpenGateway(c: Client): (r: Result<Gateway>)
    ensures r.Err? <==> c.gateway.None?
    ensures r.Err? ==> r.error == ErrNoGateway
    ensures r.Ok? ==> r.value == c.gateway.value
  {
    if c.gateway.None? then Err(ErrNoGateway) else Ok(c.gateway.value)
  }

  /** OpenShardManager: an error without a shard manager; otherwise it opens it and reports no error. */
  function OpenShardManager(c: Client): (err: Option<string>)
    ensures err.Some? <==> c.shardManager.None?
    ensures err.Some? ==> err.value == ErrNoShardManager
  {
    if c.shardManager.None? then Some(ErrNoShardManager) else None
  }
}
