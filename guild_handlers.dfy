// bot/handlers/guild_handlers.go: guild create, update and delete. A create caches the guild and
// everything that comes with it, each entity stamped with the guild's ID, and then announces the
// guild as ready (first sight after the gateway's Ready), available again (after an outage) or
// joined (new). A delete drops the guild and everything cached under it.
module GuildHandlers {
  import opened Wrappers
  import opened Snowflakes
  import opened Entities
  import opened Emojis
  import opened Channels
  import opened GatewayEvents
  import opened Caches
  import opened BotEvents

  // ---------------------------------------------------------------------------------------
  // Writing a list into a cache, one Add call per element

  /** The map after one put per element of es, in list order: a later element wins. */
  function PutAll<E, K, V>(m: map<K, V>, es: seq<E>, entry: E -> (K, V)): map<K, V>
    decreases |es|
  {
    if es == [] then m
    else
      var e := entry(es[|es| - 1]);
      PutAll(m, es[..|es| - 1], entry)[e.0 := e.1]
  }

  /** A key no element maps to keeps its old entry, or stays absent. */
  lemma {:induction false} PutAllElsewhere<E, K, V>(m: map<K, V>, es: seq<E>, entry: E -> (K, V), k: K)
    requires forall i :: 0 <= i < |es| ==> entry(es[i]).0 != k
    ensures k in PutAll(m, es, entry) <==> k in m
    ensures k in m ==> PutAll(m, es, entry)[k] == m[k]
    decreases |es|
  {
    if es != [] {
      PutAllElsewhere(m, es[..|es| - 1], entry, k);
    }
  }

  /** An element that no later element overrides is what its key holds afterwards. */
  lemma {:induction false} PutAllLast<E, K, V>(m: map<K, V>, es: seq<E>, entry: E -> (K, V), i: int)
    requires 0 <= i < |es|
    requires forall j :: i < j < |es| ==> entry(es[j]).0 != entry(es[i]).0
    ensures entry(es[i]).0 in PutAll(m, es, entry)
    ensures PutAll(m, es, entry)[entry(es[i]).0] == entry(es[i]).1
    decreases |es|
  {
    if i < |es| - 1 {
      PutAllLast(m, es[..|es| - 1], entry, i);
    }
  }

  /** Every key the puts leave behind was either there before or put by some element. */
  lemma {:induction false} PutAllKeys<E, K, V>(m: map<K, V>, es: seq<E>, entry: E -> (K, V), k: K)
    requires k in PutAll(m, es, entry)
    ensures k in m || exists i :: 0 <= i < |es| && entry(es[i]).0 == k
    decreases |es|
  {
    if es != [] && entry(es[|es| - 1]).0 != k {
      PutAllKeys(m, es[..|es| - 1], entry, k);
      if !(k in m) {
        var i :| 0 <= i < |es[..|es| - 1]| && entry(es[..|es| - 1][i]).0 == k;
        assert es[i] == es[..|es| - 1][i];
      }
    }
  }

  // ---------------------------------------------------------------------------------------
  // The stamped entries of each list of a GuildCreate

  /** fluxer.ApplyGuildIDToChannel, which keeps a guild channel a guild channel. */
  function StampChannel(channel: GuildChannel, guildID: ID): GuildChannel
  {
    ApplyGuildIDToChannel(channel, guildID)
  }

  function ChannelEntry(guildID: ID): GuildChannel -> (ID, GuildChannel)
  {
    (ch: GuildChannel) => (ch.ID(), StampChannel(ch, guildID))
  }

  function RoleEntry(guildID: ID): Role -> (Key, Role)
  {
    (r: Role) => ((guildID, r.id), r.(guildID := guildID))
  }

  function MemberEntry(guildID: ID): Member -> (Key, Member)
  {
    (m: Member) => ((guildID, m.user.id), m.(guildID := guildID))
  }

  function VoiceStateEntry(guildID: ID): VoiceState -> (Key, VoiceState)
  {
    (v: VoiceState) => ((guildID, v.userID), v.(guildID := guildID))
  }

  function EmojiEntry(guildID: ID): Emoji -> (Key, Emoji)
  {
    (e: Emoji) => ((guildID, e.ID()), e.(guildID := guildID))
  }

  function StickerEntry(guildID: ID): Sticker -> (Key, Sticker)
  {
    (s: Sticker) => ((guildID, s.id), s.(guildID := Some(guildID)))
  }

  /** Scheduled events are cached under the guild ID they carry: the handler does not stamp them. */
  function ScheduledEventEntry(): ScheduledEvent -> (Key, ScheduledEvent)
  {
    (e: ScheduledEvent) => ((e.guildID, e.id), e)
  }

  function PresenceEntry(guildID: ID): Presence -> (Key, Presence)
  {
    (p: Presence) => ((guildID, p.userID), p.(guildID := guildID))
  }

  /** The caches after the writes of a GuildCreate (lines 17 to 56), before the flags are touched. */
  function CreatedState(s: CacheState, event: GatewayGuild): CacheState
  {
    var g := event.ID();
    s.(guilds := s.guilds[g := event.guild],
       channels := PutAll(s.channels, event.channels, ChannelEntry(g)),
       roles := PutAll(s.roles, event.roles, RoleEntry(g)),
       members := PutAll(s.members, event.members, MemberEntry(g)),
       voiceStates := PutAll(s.voiceStates, event.voiceStates, VoiceStateEntry(g)),
       emojis := PutAll(s.emojis, event.emojis, EmojiEntry(g)),
       stickers := PutAll(s.stickers, event.stickers, StickerEntry(g)),
       scheduledEvents := PutAll(s.scheduledEvents, event.scheduledEvents, ScheduledEventEntry()),
       presences := PutAll(s.presences, event.presences, PresenceEntry(g)))
  }

  // ---------------------------------------------------------------------------------------
  // The cache loops of GuildCreate

  method AddChannels(c: Caches, g: ID, channels: seq<GuildChannel>)
    modifies c
    ensures c.State() == old(c.State()).(channels := PutAll(old(c.channels), channels, ChannelEntry(g)))
  {
    ghost var s0 := c.State();
    for i := 0 to |channels|
      invariant c.State() == s0.(channels := PutAll(s0.channels, channels[..i], ChannelEntry(g)))
    {
      c.AddChannel(StampChannel(channels[i], g));
      assert channels[..i + 1][..i] == channels[..i];
    }
    assert channels[..|channels|] == channels;
  }

  method AddRoles(c: Caches, g: ID, roles: seq<Role>)
    modifies c
    ensures c.State() == old(c.State()).(roles := PutAll(old(c.roles), roles, RoleEntry(g)))
  {
    ghost var s0 := c.State();
    for i := 0 to |roles|
      invariant c.State() == s0.(roles := PutAll(s0.roles, roles[..i], RoleEntry(g)))
    {
      c.AddRole(roles[i].(guildID := g));
      assert roles[..i + 1][..i] == roles[..i];
    }
    assert roles[..|roles|] == roles;
  }

  method AddMembers(c: Caches, g: ID, members: seq<Member>)
    modifies c
    ensures c.State() == old(c.State()).(members := PutAll(old(c.members), members, MemberEntry(g)))
  {
    ghost var s0 := c.State();
    for i := 0 to |members|
      invariant c.State() == s0.(members := PutAll(s0.members, members[..i], MemberEntry(g)))
    {
      c.AddMember(members[i].(guildID := g));
      assert members[..i + 1][..i] == members[..i];
    }
    assert members[..|members|] == members;
  }

  method AddVoiceStates(c: Caches, g: ID, voiceStates: seq<VoiceState>)
    modifies c
    ensures c.State() == old(c.State()).(voiceStates := PutAll(old(c.voiceStates), voiceStates, VoiceStateEntry(g)))
  {
    ghost var s0 := c.State();
    for i := 0 to |voiceStates|
      invariant c.State() == s0.(voiceStates := PutAll(s0.voiceStates, voiceStates[..i], VoiceStateEntry(g)))
    {
      c.AddVoiceState(voiceStates[i].(guildID := g));
      assert voiceStates[..i + 1][..i] == voiceStates[..i];
    }
    assert voiceStates[..|voiceStates|] == voiceStates;
  }

  method AddEmojis(c: Caches, g: ID, emojis: seq<Emoji>)
    modifies c
    ensures c.State() == old(c.State()).(emojis := PutAll(old(c.emojis), emojis, EmojiEntry(g)))
  {
    ghost var s0 := c.State();
    for i := 0 to |emojis|
      invariant c.State() == s0.(emojis := PutAll(s0.emojis, emojis[..i], EmojiEntry(g)))
    {
      c.AddEmoji(emojis[i].(guildID := g));
      assert emojis[..i + 1][..i] == emojis[..i];
    }
    assert emojis[..|emojis|] == emojis;
  }

  method AddStickers(c: Caches, g: ID, stickers: seq<Sticker>)
    modifies c
    ensures c.State() == old(c.State()).(stickers := PutAll(old(c.stickers), stickers, StickerEntry(g)))
  {
    ghost var s0 := c.State();
    for i := 0 to |stickers|
      invariant c.State() == s0.(stickers := PutAll(s0.stickers, stickers[..i], StickerEntry(g)))
    {
      c.AddSticker(stickers[i].(guildID := Some(g)));
      assert stickers[..i + 1][..i] == stickers[..i];
    }
    assert stickers[..|stickers|] == stickers;
  }

  method AddScheduledEvents(c: Caches, scheduledEvents: seq<ScheduledEvent>)
    modifies c
    ensures c.State() == old(c.State()).(scheduledEvents := PutAll(old(c.scheduledEvents), scheduledEvents, ScheduledEventEntry()))
  {
    ghost var s0 := c.State();
    for i := 0 to |scheduledEvents|
      invariant c.State() == s0.(scheduledEvents := PutAll(s0.scheduledEvents, scheduledEvents[..i], ScheduledEventEntry()))
    {
      c.AddGuildScheduledEvent(scheduledEvents[i]);
      assert scheduledEvents[..i + 1][..i] == scheduledEvents[..i];
    }
    assert scheduledEvents[..|scheduledEvents|] == scheduledEvents;
  }

  method AddPresences(c: Caches, g: ID, presences: seq<Presence>)
    modifies c
    ensures c.State() == old(c.State()).(presences := PutAll(old(c.presences), presences, PresenceEntry(g)))
  {
    ghost var s0 := c.State();
    for i := 0 to |presences|
      invariant c.State() == s0.(presences := PutAll(s0.presences, presences[..i], PresenceEntry(g)))
    {
      c.AddPresence(presences[i].(guildID := g));
      assert presences[..i + 1][..i] == presences[..i];
    }
    assert presences[..|presences|] == presences;
  }

  /** Lines 17 to 56: the guild, then each list in the order the handler ranges over them. */
  method CacheGatewayGuild(c: Caches, event: GatewayGuild)
    modifies c
    ensures c.State() == CreatedState(old(c.State()), event)
  {
    var g := event.ID();
    c.AddGuild(event.guild);
    AddChannels(c, g, event.channels);
    AddRoles(c, g, event.roles);
    AddMembers(c, g, event.members);
    AddVoiceStates(c, g, event.voiceStates);
    AddEmojis(c, g, event.emojis);
    AddStickers(c, g, event.stickers);
    AddScheduledEvents(c, event.scheduledEvents);
    AddPresences(c, g, event.presences);
  }

  // ---------------------------------------------------------------------------------------
  // The handlers

  /** The events of a GuildCreate, given the flags read before any cache write and the unready set left afterwards. */
  function GuildCreateEvents(event: GatewayGuild, wasUnready: bool, wasUnavailable: bool, unreadyLeft: set<ID>): (r: seq<BotEvent>)
    ensures GuildReady(event.ID(), event) in r <==> wasUnready
    ensures GuildAvailable(event.ID(), event) in r <==> !wasUnready && wasUnavailable
    ensures GuildJoin(event.ID(), event) in r <==> !wasUnready && !wasUnavailable
    ensures GuildsReady in r <==> wasUnready && unreadyLeft == {}
    ensures |r| == if wasUnready && unreadyLeft == {} then 2 else 1
  {
    if wasUnready then [GuildReady(event.ID(), event)] + (if unreadyLeft == {} then [GuildsReady] else [])
    else if wasUnavailable then [GuildAvailable(event.ID(), event)]
    else [GuildJoin(event.ID(), event)]
  }

  /**
   * gatewayHandlerGuildCreate. chunkFilter stands for the member chunking filter; chunkRequested
   * says whether the handler starts the background member request for this guild.
   */
  method HandleGuildCreate(c: Caches, event: GatewayGuild, chunkFilter: ID -> bool)
      returns (events: seq<BotEvent>, chunkRequested: bool)
    modifies c
    ensures var g := event.ID();
            var wasUnready := g in old(c.unreadyGuilds);
            var wasUnavailable := g in old(c.unavailableGuilds);
            && events == GuildCreateEvents(event, wasUnready, wasUnavailable, old(c.unreadyGuilds) - {g})
            && chunkRequested == (wasUnready && chunkFilter(g))
            && c.State() == CreatedState(old(c.State()), event).(
                 unreadyGuilds := if wasUnready then old(c.unreadyGuilds) - {g} else old(c.unreadyGuilds),
                 unavailableGuilds := if !wasUnready && wasUnavailable then old(c.unavailableGuilds) - {g} else old(c.unavailableGuilds))
  {
    var g := event.ID();
    var wasUnready := c.IsGuildUnready(g);
    var wasUnavailable := c.IsGuildUnavailable(g);
    CacheGatewayGuild(c, event);
    chunkRequested := false;
    if wasUnready {
      c.SetGuildUnready(g, false);
      events := [GuildReady(g, event)];
      var unready := c.UnreadyGuildIDs();
      if |unready| == 0 {
        events := events + [GuildsReady];
      }
      chunkRequested := chunkFilter(g);
      return;
    }
    if wasUnavailable {
      c.SetGuildUnavailable(g, false);
      events := [GuildAvailable(g, event)];
    } else {
      events := [GuildJoin(g, event)];
    }
  }

  /** gatewayHandlerGuildUpdate: the previously cached guild, or the zero guild, is reported as the old one. */
  method HandleGuildUpdate(c: Caches, guild: Guild) returns (events: seq<BotEvent>)
    modifies c
    ensures events == [GuildUpdate(guild.id, guild, if guild.id in old(c.guilds) then old(c.guilds)[guild.id] else ZeroGuild)]
    ensures c.State() == old(c.State()).(guilds := old(c.guilds)[guild.id := guild])
  {
    var oldGuild, _ := c.Guild(guild.id);
    c.AddGuild(guild);
    events := [GuildUpdate(guild.id, guild, oldGuild)];
  }

  /** The caches after a GuildDelete: the guild and everything cached under it are gone. */
  function DeletedState(s: CacheState, event: GuildDelete): CacheState
  {
    var g := event.id;
    s.(unavailableGuilds := if event.unavailable then SetMembership(s.unavailableGuilds, g, true) else s.unavailableGuilds,
       guilds := s.guilds - {g},
       voiceStates := GroupRemoved(s.voiceStates, g),
       presences := GroupRemoved(s.presences, g),
       channels := ChannelsWithoutGuild(s.channels, g),
       emojis := GroupRemoved(s.emojis, g),
       stickers := GroupRemoved(s.stickers, g),
       roles := GroupRemoved(s.roles, g),
       members := GroupRemoved(s.members, g),
       scheduledEvents := GroupRemoved(s.scheduledEvents, g),
       messages := MessagesWithoutGuild(s.messages, g))
  }

  /** The one event of a GuildDelete, carrying the guild that was cached (or the zero guild). */
  function GuildDeleteEvent(event: GuildDelete, guild: Guild): BotEvent
  {
    if event.unavailable then GuildUnavailable(event.id, guild) else GuildLeave(event.id, guild)
  }

  /** gatewayHandlerGuildDelete */
  method HandleGuildDelete(c: Caches, event: GuildDelete) returns (events: seq<BotEvent>)
    modifies c
    ensures events == [GuildDeleteEvent(event, if event.id in old(c.guilds) then old(c.guilds)[event.id] else ZeroGuild)]
    ensures c.State() == DeletedState(old(c.State()), event)
  {
    var g := event.id;
    if event.unavailable {
      c.SetGuildUnavailable(g, true);
    }
    var guild, _ := c.RemoveGuild(g);
    c.RemoveVoiceStatesByGuildID(g);
    c.RemovePresencesByGuildID(g);
    c.RemoveChannelsByGuildID(g);
    c.RemoveEmojisByGuildID(g);
    c.RemoveStickersByGuildID(g);
    c.RemoveRolesByGuildID(g);
    c.RemoveMembersByGuildID(g);
    c.RemoveGuildScheduledEventsByGuildID(g);
    c.RemoveMessagesByGuildID(g);
    events := [GuildDeleteEvent(event, guild)];
  }

  /** A second update of the same guild reports the first update's guild as the old one. */
  method SecondGuildUpdateReportsFirst(c: Caches, first: Guild, second: Guild) returns (events: seq<BotEvent>)
    requires first.id == second.id
    modifies c
    ensures events == [GuildUpdate(second.id, second, first)]
    ensures c.guilds == old(c.guilds)[second.id := second]
  {
    var _ := HandleGuildUpdate(c, first);
    events := HandleGuildUpdate(c, second);
  }

  // ---------------------------------------------------------------------------------------
  // What a GuildCreate caches

  /** A channel no later channel of the list overrides is cached stamped; a link-extended one as it came. */
  lemma GuildCreateStampsChannel(s: CacheState, event: GatewayGuild, i: int)
    requires 0 <= i < |event.channels|
    requires forall j :: i < j < |event.channels| ==> event.channels[j].ID() != event.channels[i].ID()
    ensures var ch := event.channels[i];
            var r := CreatedState(s, event).channels;
            && ch.ID() in r
            && (ch.AsGuildLinkExtended? ==> r[ch.ID()] == ch)
            && (!ch.AsGuildLinkExtended? ==> r[ch.ID()].Type() == ch.Type() && r[ch.ID()].GuildID() == event.ID())
  {
    PutAllLast(s.channels, event.channels, ChannelEntry(event.ID()), i);
  }

  /** A role no later role with the same ID overrides is cached under the guild, stamped with its ID. */
  lemma GuildCreateStampsRole(s: CacheState, event: GatewayGuild, i: int)
    requires 0 <= i < |event.roles|
    requires forall j :: i < j < |event.roles| ==> event.roles[j].id != event.roles[i].id
    ensures var k := (event.ID(), event.roles[i].id);
            k in CreatedState(s, event).roles && CreatedState(s, event).roles[k] == event.roles[i].(guildID := event.ID())
  {
    PutAllLast(s.roles, event.roles, RoleEntry(event.ID()), i);
  }

  /** The same for members, keyed by user ID. */
  lemma GuildCreateStampsMember(s: CacheState, event: GatewayGuild, i: int)
    requires 0 <= i < |event.members|
    requires forall j :: i < j < |event.members| ==> event.members[j].user.id != event.members[i].user.id
    ensures var k := (event.ID(), event.members[i].user.id);
            k in CreatedState(s, event).members && CreatedState(s, event).members[k] == event.members[i].(guildID := event.ID())
  {
    PutAllLast(s.members, event.members, MemberEntry(event.ID()), i);
  }

  /** The same for voice states, keyed by user ID. */
  lemma GuildCreateStampsVoiceState(s: CacheState, event: GatewayGuild, i: int)
    requires 0 <= i < |event.voiceStates|
    requires forall j :: i < j < |event.voiceStates| ==> event.voiceStates[j].userID != event.voiceStates[i].userID
    ensures var k := (event.ID(), event.voiceStates[i].userID);
            k in CreatedState(s, event).voiceStates
            && CreatedState(s, event).voiceStates[k] == event.voiceStates[i].(guildID := event.ID())
  {
    PutAllLast(s.voiceStates, event.voiceStates, VoiceStateEntry(event.ID()), i);
  }

  /** The same for emojis, keyed by emoji ID. */
  lemma GuildCreateStampsEmoji(s: CacheState, event: GatewayGuild, i: int)
    requires 0 <= i < |event.emojis|
    requires forall j :: i < j < |event.emojis| ==> event.emojis[j].ID() != event.emojis[i].ID()
    ensures var k := (event.ID(), event.emojis[i].ID());
            k in CreatedState(s, event).emojis && CreatedState(s, event).emojis[k] == event.emojis[i].(guildID := event.ID())
  {
    PutAllLast(s.emojis, event.emojis, EmojiEntry(event.ID()), i);
  }

  /** The same for stickers, whose optional guild ID is set. */
  lemma GuildCreateStampsSticker(s: CacheState, event: GatewayGuild, i: int)
    requires 0 <= i < |event.stickers|
    requires forall j :: i < j < |event.stickers| ==> event.stickers[j].id != event.stickers[i].id
    ensures var k := (event.ID(), event.stickers[i].id);
            k in CreatedState(s, event).stickers
            && CreatedState(s, event).stickers[k] == event.stickers[i].(guildID := Some(event.ID()))
  {
    PutAllLast(s.stickers, event.stickers, StickerEntry(event.ID()), i);
  }

  /** The same for presences, keyed by user ID. */
  lemma GuildCreateStampsPresence(s: CacheState, event: GatewayGuild, i: int)
    requires 0 <= i < |event.presences|
    requires forall j :: i < j < |event.presences| ==> event.presences[j].userID != event.presences[i].userID
    ensures var k := (event.ID(), event.presences[i].userID);
            k in CreatedState(s, event).presences
            && CreatedState(s, event).presences[k] == event.presences[i].(guildID := event.ID())
  {
    PutAllLast(s.presences, event.presences, PresenceEntry(event.ID()), i);
  }

  /** A scheduled event is cached as it came, under the guild ID it carries, whatever guild is being created. */
  lemma GuildCreateKeepsScheduledEventGuild(s: CacheState, event: GatewayGuild, i: int)
    requires 0 <= i < |event.scheduledEvents|
    requires forall j :: i < j < |event.scheduledEvents| ==>
               (event.scheduledEvents[j].guildID, event.scheduledEvents[j].id) != (event.scheduledEvents[i].guildID, event.scheduledEvents[i].id)
    ensures var e := event.scheduledEvents[i];
            (e.guildID, e.id) in CreatedState(s, event).scheduledEvents
            && CreatedState(s, event).scheduledEvents[(e.guildID, e.id)] == e
  {
    PutAllLast(s.scheduledEvents, event.scheduledEvents, ScheduledEventEntry(), i);
  }

  /** The stamped caches of every other guild are left exactly as they were. */
  lemma GuildCreateKeepsOtherGuilds(s: CacheState, event: GatewayGuild, k: Key)
    requires k.0 != event.ID()
    ensures var r := CreatedState(s, event);
            && (k in r.roles <==> k in s.roles) && (k in s.roles ==> r.roles[k] == s.roles[k])
            && (k in r.members <==> k in s.members) && (k in s.members ==> r.members[k] == s.members[k])
            && (k in r.voiceStates <==> k in s.voiceStates) && (k in s.voiceStates ==> r.voiceStates[k] == s.voiceStates[k])
            && (k in r.emojis <==> k in s.emojis) && (k in s.emojis ==> r.emojis[k] == s.emojis[k])
            && (k in r.stickers <==> k in s.stickers) && (k in s.stickers ==> r.stickers[k] == s.stickers[k])
            && (k in r.presences <==> k in s.presences) && (k in s.presences ==> r.presences[k] == s.presences[k])
  {
    var g := event.ID();
    PutAllElsewhere(s.roles, event.roles, RoleEntry(g), k);
    PutAllElsewhere(s.members, event.members, MemberEntry(g), k);
    PutAllElsewhere(s.voiceStates, event.voiceStates, VoiceStateEntry(g), k);
    PutAllElsewhere(s.emojis, event.emojis, EmojiEntry(g), k);
    PutAllElsewhere(s.stickers, event.stickers, StickerEntry(g), k);
    PutAllElsewhere(s.presences, event.presences, PresenceEntry(g), k);
  }

  /** Stamping keeps every emoji and sticker under its own guild and ID, as the update handlers expect. */
  lemma GuildCreateKeepsKeyed(s: CacheState, event: GatewayGuild)
    requires KeyedEmojis(s.emojis) && KeyedStickers(s.stickers)
    ensures KeyedEmojis(CreatedState(s, event).emojis) && KeyedStickers(CreatedState(s, event).stickers)
  {
    var g := event.ID();
    var r := CreatedState(s, event);
    forall k | k in r.emojis ensures r.emojis[k].guildID == k.0 && r.emojis[k].ID() == k.1 {
      PutAllKeys(s.emojis, event.emojis, EmojiEntry(g), k);
      if k !in s.emojis || exists i :: 0 <= i < |event.emojis| && EmojiEntry(g)(event.emojis[i]).0 == k {
        var i := LastPut(event.emojis, EmojiEntry(g), k);
        PutAllLast(s.emojis, event.emojis, EmojiEntry(g), i);
      } else {
        PutAllElsewhere(s.emojis, event.emojis, EmojiEntry(g), k);
      }
    }
    forall k | k in r.stickers ensures r.stickers[k].guildID == Some(k.0) && r.stickers[k].id == k.1 {
      PutAllKeys(s.stickers, event.stickers, StickerEntry(g), k);
      if k !in s.stickers || exists i :: 0 <= i < |event.stickers| && StickerEntry(g)(event.stickers[i]).0 == k {
        var i := LastPut(event.stickers, StickerEntry(g), k);
        PutAllLast(s.stickers, event.stickers, StickerEntry(g), i);
      } else {
        PutAllElsewhere(s.stickers, event.stickers, StickerEntry(g), k);
      }
    }
  }

  /** The last element that puts a given key, when some element does. */
  lemma LastPut<E, K, V>(es: seq<E>, entry: E -> (K, V), k: K) returns (i: int)
    requires exists j :: 0 <= j < |es| && entry(es[j]).0 == k
    ensures 0 <= i < |es| && entry(es[i]).0 == k
    ensures forall j :: i < j < |es| ==> entry(es[j]).0 != k
  {
    i := |es| - 1;
    while entry(es[i]).0 != k
      invariant 0 <= i < |es|
      invariant forall j :: i < j < |es| ==> entry(es[j]).0 != k
      invariant exists j :: 0 <= j <= i && entry(es[j]).0 == k
      decreases i
    {
      i := i - 1;
    }
  }

  // ---------------------------------------------------------------------------------------
  // What a GuildDelete leaves behind

  /** Nothing of the guild survives a delete, and its unavailable flag is set iff the guild went unavailable or already was. */
  lemma GuildDeleteLeavesNothing(s: CacheState, event: GuildDelete)
    ensures var g := event.id;
            var r := DeletedState(s, event);
            && g !in r.guilds
            && (g in r.unavailableGuilds <==> event.unavailable || g in s.unavailableGuilds)
            && (forall k :: k in r.roles ==> k.0 != g)
            && (forall k :: k in r.members ==> k.0 != g)
            && (forall k :: k in r.voiceStates ==> k.0 != g)
            && (forall k :: k in r.presences ==> k.0 != g)
            && (forall k :: k in r.emojis ==> k.0 != g)
            && (forall k :: k in r.stickers ==> k.0 != g)
            && (forall k :: k in r.scheduledEvents ==> k.0 != g)
            && (forall id :: id in r.channels ==> r.channels[id].GuildID() != g)
            && (forall k :: k in r.messages ==> r.messages[k].guildID != Some(g))
  {
  }

  /** After an outage delete, the guild's next create announces it available again, unless it is still unready. */
  lemma OutageThenCreateIsAvailable(s: CacheState, id: ID, event: GatewayGuild)
    requires event.ID() == id
    requires id !in s.unreadyGuilds
    ensures var r := DeletedState(s, GuildDelete(id, true));
            GuildCreateEvents(event, id in r.unreadyGuilds, id in r.unavailableGuilds, r.unreadyGuilds - {id})
            == [GuildAvailable(id, event)]
  {
  }

  /** After a leave, the guild's next create is a join, unless it was unready or already unavailable. */
  lemma LeaveThenCreateIsJoin(s: CacheState, id: ID, event: GatewayGuild)
    requires event.ID() == id
    requires id !in s.unreadyGuilds && id !in s.unavailableGuilds
    ensures var r := DeletedState(s, GuildDelete(id, false));
            GuildCreateEvents(event, id in r.unreadyGuilds, id in r.unavailableGuilds, r.unreadyGuilds - {id})
            == [GuildJoin(id, event)]
  {
  }
}
