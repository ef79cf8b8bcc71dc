// cache/caches.go: the entity caches a bot keeps, the unready and unavailable guild sets,
// the self-user slot, and the permission computations over cached guilds, roles and channels.
//
// Each Go cache is a Cache[T] (keyed by ID) or a GroupedCache[T] (keyed by a group ID and an
// entity ID); their implementations are not part of this model and are taken to be finite maps.
// Ranging over one of them visits its entries in an unspecified order, which the model leaves
// open by choosing the next key arbitrarily.
module Caches {
  import opened Wrappers
  import opened Snowflakes
  import opened GoTime
  import opened Permissions
  import opened Entities
  import opened Emojis
  import opened Channels
  import opened Messages
  import opened ExpressionDiffs

  /** The entity kinds a Caches value can be configured to keep (cache.Flags). */
  datatype CacheFlag =
    | FlagGuilds | FlagChannels | FlagGuildScheduledEvents | FlagRoles | FlagMembers
    | FlagPresences | FlagVoiceStates | FlagMessages | FlagEmojis | FlagStickers

  /** A grouped cache key: (group ID, entity ID). */
  type Key = (ID, ID)

  /** A snapshot of every cache, used to state what an operation changes and what it keeps. */
  datatype CacheState = CacheState(
    cacheFlags: set<CacheFlag>,
    selfUser: Option<OAuth2User>,
    unreadyGuilds: set<ID>,
    unavailableGuilds: set<ID>,
    guilds: map<ID, Guild>,
    channels: map<ID, GuildChannel>,
    scheduledEvents: map<Key, ScheduledEvent>,
    roles: map<Key, Role>,
    members: map<Key, Member>,
    presences: map<Key, Presence>,
    voiceStates: map<Key, VoiceState>,
    messages: map<Key, Message>,
    emojis: map<Key, Emoji>,
    stickers: map<Key, Sticker>)

  // ---------------------------------------------------------------------------------------
  // Set and map operations the caches are built from

  /** Set[ID] after the if/else-if of SetGuildUnready / SetGuildUnavailable. */
  function SetMembership(s: set<ID>, id: ID, member: bool): (r: set<ID>)
    ensures id in r <==> member
    ensures forall x :: x != id ==> (x in r <==> x in s)
  {
    if id in s && !member then s - {id}
    else if id !in s && member then s + {id}
    else s
  }

  /** Setting the same membership twice is the same as setting it once. */
  lemma SetMembershipIdempotent(s: set<ID>, id: ID, member: bool)
    ensures SetMembership(SetMembership(s, id, member), id, member) == SetMembership(s, id, member)
  {
  }

  /** Setting a membership that already holds changes nothing. */
  lemma SetMembershipNoop(s: set<ID>, id: ID)
    ensures SetMembership(s, id, id in s) == s
  {
  }

  /** GroupedCache.GroupRemove: every entry of one group goes, every other entry stays. */
  function GroupRemoved<V>(m: map<Key, V>, group: ID): (r: map<Key, V>)
    ensures forall k :: k in r <==> k in m && k.0 != group
    ensures forall k :: k in r ==> r[k] == m[k]
  {
    map k | k in m && k.0 != group :: m[k]
  }

  /** GroupedCache.All(groupID): the values of one group, in the order the cache is ranged over. */
  method GroupValues<V>(m: map<Key, V>, group: ID) returns (vs: seq<V>)
    ensures forall v :: v in vs <==> exists id :: (group, id) in m && m[(group, id)] == v
  {
    var ks := SelectKeys(m, (k: Key, v: V) => k.0 == group);
    vs := seq(|ks|, i requires 0 <= i < |ks| => m[ks[i]]);
    forall v | v in vs ensures exists id :: (group, id) in m && m[(group, id)] == v {
      var i :| 0 <= i < |vs| && vs[i] == v;
      assert ks[i] == (group, ks[i].1);
    }
    forall v | exists id :: (group, id) in m && m[(group, id)] == v ensures v in vs {
      var id :| (group, id) in m && m[(group, id)] == v;
      var i :| 0 <= i < |ks| && ks[i] == (group, id);
      assert vs[i] == v;
    }
  }

  /** Cache.RemoveIf / GroupedCache.RemoveIf: the entries whose value satisfies the predicate go. */
  function RemovedWhere<K(!new), V>(m: map<K, V>, remove: V -> bool): (r: map<K, V>)
    ensures forall k :: k in r <==> k in m && !remove(m[k])
    ensures forall k :: k in r ==> r[k] == m[k]
  {
    map k | k in m && !remove(m[k]) :: m[k]
  }

  /** The channels RemoveChannelsByGuildID keeps. */
  function ChannelsWithoutGuild(channels: map<ID, GuildChannel>, guildID: ID): map<ID, GuildChannel>
  {
    RemovedWhere(channels, (c: GuildChannel) => c.GuildID() == guildID)
  }

  /** The messages RemoveMessagesByGuildID keeps: a message goes iff its guild ID is present and equal. */
  function MessagesWithoutGuild(messages: map<Key, Message>, guildID: ID): map<Key, Message>
  {
    RemovedWhere(messages, (m: Message) => m.guildID == Some(guildID))
  }

  /** RemoveMessagesByGuildID removes exactly that guild's messages; DM messages always survive. */
  lemma MessagesWithoutGuildExactly(messages: map<Key, Message>, guildID: ID)
    ensures forall k :: k in MessagesWithoutGuild(messages, guildID) <==>
      k in messages && (messages[k].guildID.None? || messages[k].guildID.value != guildID)
    ensures forall k :: k in messages && messages[k].guildID.None? ==>
      k in MessagesWithoutGuild(messages, guildID) && MessagesWithoutGuild(messages, guildID)[k] == messages[k]
  {
  }

  predicate Distinct<K(==)>(ks: seq<K>)
  {
    forall i, j :: 0 <= i < j < |ks| ==> ks[i] != ks[j]
  }

  /** A list without repetitions has as many elements as the set of its elements. */
  lemma {:induction false} DistinctCardinality<K>(ks: seq<K>)
    requires Distinct(ks)
    ensures |set k | k in ks| == |ks|
  {
    if ks != [] {
      var init := ks[..|ks| - 1];
      var last := ks[|ks| - 1];
      assert Distinct(init);
      DistinctCardinality(init);
      assert (set k | k in ks) == (set k | k in init) + {last};
      assert last !in (set k | k in init);
    }
  }

  /** A list without repetitions whose elements are exactly a set has one element per member. */
  lemma DistinctListOfSet<K>(ks: seq<K>, s: set<K>)
    requires Distinct(ks)
    requires forall k :: k in ks <==> k in s
    ensures |ks| == |s|
  {
    DistinctCardinality(ks);
    assert (set k | k in ks) == s;
  }

  /** A list enumerating a set without repetition has one element per member. */
  lemma EnumeratesCardinality(order: seq<ID>, keys: set<ID>)
    requires Enumerates(order, keys)
    ensures |order| == |keys|
  {
    assert Distinct(order);
    DistinctListOfSet(order, keys);
  }

  /** Ranges over a set, collecting its elements in the order visited. */
  method Enumerate<K(==)>(s: set<K>) returns (ks: seq<K>)
    ensures forall k :: k in ks <==> k in s
    ensures Distinct(ks) && |ks| == |s|
  {
    var todo := s;
    ks := [];
    while todo != {}
      invariant todo <= s
      invariant forall k :: k in ks <==> k in s && k !in todo
      invariant Distinct(ks)
      decreases todo
    {
      var k :| k in todo;
      ks := ks + [k];
      todo := todo - {k};
    }
    DistinctCardinality(ks);
    assert (set k | k in ks) == s;
  }

  /** Ranges over a map, collecting the keys whose entries pass the filter, in the order visited. */
  method SelectKeys<K(==), V>(m: map<K, V>, keep: (K, V) -> bool) returns (ks: seq<K>)
    ensures forall k :: k in ks <==> k in m && keep(k, m[k])
    ensures Distinct(ks)
  {
    var todo := m.Keys;
    ks := [];
    while todo != {}
      invariant todo <= m.Keys
      invariant forall k :: k in ks <==> k in m && k !in todo && keep(k, m[k])
      invariant Distinct(ks)
      decreases todo
    {
      var k :| k in todo;
      if keep(k, m[k]) {
        ks := ks + [k];
      }
      todo := todo - {k};
    }
  }

  // ---------------------------------------------------------------------------------------
  // Folds over sets and lists

  /** Two elements folded in one after the other can be folded in the other way round. */
  ghost predicate Swaps<T(!new)>(f: (T, T) -> T)
  {
    forall c, a, b :: f(f(c, a), b) == f(f(c, b), a)
  }

  /** Folding an element in a second time changes nothing. */
  ghost predicate Absorbs<T(!new)>(f: (T, T) -> T)
  {
    forall c, a :: f(f(c, a), a) == f(c, a)
  }

  /** z with g of every element of s folded in by f, in an unspecified order. */
  ghost function SetFold<E, T>(s: set<E>, g: E -> T, f: (T, T) -> T, z: T): T
    decreases s
  {
    if s == {} then z else var e :| e in s; f(SetFold(s - {e}, g, f, z), g(e))
  }

  /** z with g of every element of s folded in by f, in list order. */
  ghost function ListFold<E, T>(s: seq<E>, g: E -> T, f: (T, T) -> T, z: T): T
    decreases |s|
  {
    if s == [] then z else f(ListFold(s[..|s| - 1], g, f, z), g(s[|s| - 1]))
  }

  lemma SetFoldUnfold<E, T>(s: set<E>, g: E -> T, f: (T, T) -> T, z: T) returns (y: E)
    requires s != {}
    ensures y in s && SetFold(s, g, f, z) == f(SetFold(s - {y}, g, f, z), g(y))
  {
    y :| y in s && SetFold(s, g, f, z) == f(SetFold(s - {y}, g, f, z), g(y));
  }

  /** When f swaps, the set fold can be unfolded at any element, whichever one its definition picks. */
  lemma {:induction false} SetFoldPick<E, T(!new)>(s: set<E>, g: E -> T, f: (T, T) -> T, z: T, x: E)
    requires Swaps(f) && x in s
    ensures SetFold(s, g, f, z) == f(SetFold(s - {x}, g, f, z), g(x))
    decreases s
  {
    var y := SetFoldUnfold(s, g, f, z);
    if y != x {
      SetFoldPick(s - {y}, g, f, z, x);
      SetFoldPick(s - {x}, g, f, z, y);
      assert s - {y} - {x} == s - {x} - {y};
    }
  }

  /** When f swaps and absorbs, the list fold is the set fold of the list's elements, whatever their order and repetitions. */
  lemma {:induction false} ListFoldIsSetFold<E, T(!new)>(s: seq<E>, g: E -> T, f: (T, T) -> T, z: T)
    requires Swaps(f) && Absorbs(f)
    ensures ListFold(s, g, f, z) == SetFold((set e | e in s), g, f, z)
    decreases |s|
  {
    if s != [] {
      var init, last := s[..|s| - 1], s[|s| - 1];
      ListFoldIsSetFold(init, g, f, z);
      var before := set e | e in init;
      var after := set e | e in s;
      if last in before {
        assert after == before;
        SetFoldPick(before, g, f, z, last);
      } else {
        assert after - {last} == before;
        SetFoldPick(after, g, f, z, last);
      }
    }
  }

  /** A property the fold keeps once it holds survives from a prefix to the whole list. */
  lemma {:induction false} ListFoldKeeps<E, T(!new)>(s: seq<E>, g: E -> T, f: (T, T) -> T, z: T, j: nat, P: T -> bool)
    requires j <= |s|
    requires forall c, a :: P(c) ==> P(f(c, a))
    requires P(ListFold(s[..j], g, f, z))
    ensures P(ListFold(s, g, f, z))
    decreases |s|
  {
    if j < |s| {
      var init := s[..|s| - 1];
      assert init[..j] == s[..j];
      ListFoldKeeps(init, g, f, z, j, P);
    } else {
      assert s[..j] == s;
    }
  }

  /** A property that element alone brings into the fold holds of the set fold. */
  lemma SetFoldHas<E, T(!new)>(s: set<E>, g: E -> T, f: (T, T) -> T, z: T, x: E, P: T -> bool)
    requires Swaps(f) && x in s
    requires forall c, a :: P(a) ==> P(f(c, a))
    requires P(g(x))
    ensures P(SetFold(s, g, f, z))
  {
    SetFoldPick(s, g, f, z, x);
  }

  // ---------------------------------------------------------------------------------------
  // Permission specification

  /** The cached roles of the member's guild whose ID the member lists (the keys MemberRoles visits and keeps). */
  function MemberRoleKeys(roles: map<Key, Role>, member: Member): set<Key>
  {
    set k | k in roles && k.0 == member.guildID && roles[k].id in member.roleIDs
  }

  function MemberRoleSet(roles: map<Key, Role>, member: Member): set<Role>
  {
    set k | k in MemberRoleKeys(roles, member) :: roles[k]
  }

  function RolePermissions(r: Role): Permissions
  {
    r.permissions
  }

  /** Permissions.Add with one mask. */
  function Grant(p: Permissions, bits: Permissions): Permissions
  {
    p | bits
  }

  /** Permissions.Remove with one mask. */
  function Revoke(p: Permissions, bits: Permissions): Permissions
  {
    p & !bits
  }

  predicate IsAdministrator(p: Permissions)
  {
    HasAll(p, PermissionAdministrator)
  }

  lemma GrantSwap(c: Permissions, a: Permissions, b: Permissions)
    ensures (c | a) | b == (c | b) | a
  {
  }

  lemma GrantAgain(c: Permissions, a: Permissions)
    ensures (c | a) | a == c | a
  {
  }

  lemma GrantKeepsAdministrator(c: Permissions, a: Permissions)
    requires IsAdministrator(c) || IsAdministrator(a)
    ensures IsAdministrator(Grant(c, a))
  {
  }

  /** Granting role masks is order-independent and idempotent. */
  lemma GrantLaws()
    ensures Swaps(Grant) && Absorbs(Grant)
    ensures forall c, a :: IsAdministrator(c) ==> IsAdministrator(Grant(c, a))
    ensures forall c, a :: IsAdministrator(a) ==> IsAdministrator(Grant(c, a))
  {
    forall c, a, b ensures Grant(Grant(c, a), b) == Grant(Grant(c, b), a) {
      GrantSwap(c, a, b);
    }
    forall c, a ensures Grant(Grant(c, a), a) == Grant(c, a) {
      GrantAgain(c, a);
    }
    forall c, a | IsAdministrator(c) || IsAdministrator(a) ensures IsAdministrator(Grant(c, a)) {
      GrantKeepsAdministrator(c, a);
    }
  }

  predicate IsGuildOwner(guilds: map<ID, Guild>, member: Member)
  {
    member.guildID in guilds && guilds[member.guildID].ownerID == member.user.id
  }

  /** The @everyone role shares its ID with the guild. */
  function EveryonePermissions(roles: map<Key, Role>, guildID: ID): Permissions
  {
    if (guildID, guildID) in roles then roles[(guildID, guildID)].permissions else PermissionsNone
  }

  /** The @everyone permissions with those of every given role added. */
  ghost function GuildPermissions(roles: map<Key, Role>, guildID: ID, rs: set<Role>): Permissions
  {
    SetFold(rs, RolePermissions, Grant, EveryonePermissions(roles, guildID))
  }

  /** A communication timeout is active while its end lies after now. */
  predicate TimedOut(member: Member, now: Time)
  {
    member.communicationDisabledUntil.Some? && After(member.communicationDisabledUntil.value, now)
  }

  /** While a timeout is active only View Channel and Read Message History survive. */
  function ApplyTimeout(p: Permissions, member: Member, now: Time): Permissions
  {
    if TimedOut(member, now) then p & TimeoutMask else p
  }

  /**
   * The permissions MemberPermissions computes: the owner has every permission; otherwise
   * the @everyone permissions with those of the member's cached roles added, which become every
   * permission when the member has at least one cached role and the sum holds Administrator,
   * and are cut down to the timeout mask while a timeout is active.
   */
  ghost function MemberPermissionsOf(guilds: map<ID, Guild>, roles: map<Key, Role>, member: Member, now: Time): Permissions
  {
    if IsGuildOwner(guilds, member) then PermissionsAll
    else
      var rs := MemberRoleSet(roles, member);
      var p := GuildPermissions(roles, member.guildID, rs);
      if rs != {} && IsAdministrator(p) then PermissionsAll
      else ApplyTimeout(p, member, now)
  }

  /** Whatever order MemberRoles visits the roles in, adding them up gives the guild-level permissions of MemberPermissionsOf. */
  lemma RoleListGuildPermissions(roles: map<Key, Role>, member: Member, rs: seq<Role>)
    requires forall r :: r in rs <==> r in MemberRoleSet(roles, member)
    ensures ListFold(rs, RolePermissions, Grant, EveryonePermissions(roles, member.guildID))
            == GuildPermissions(roles, member.guildID, MemberRoleSet(roles, member))
    ensures rs == [] <==> MemberRoleSet(roles, member) == {}
  {
    assert (set r | r in rs) == MemberRoleSet(roles, member);
    GrantLaws();
    ListFoldIsSetFold(rs, RolePermissions, Grant, EveryonePermissions(roles, member.guildID));
    if rs != [] {
      assert rs[0] in MemberRoleSet(roles, member);
    }
  }

  lemma MaskKeepsOnlyTimeoutBits(p: Permissions)
    ensures (p & TimeoutMask) & !TimeoutMask == 0
  {
  }

  lemma TimeoutMaskHasNoAdministrator(p: Permissions)
    ensures !IsAdministrator(p & TimeoutMask)
  {
  }

  /** Once the running grant of a role list includes Administrator, the whole list's grant does too. */
  lemma AdministratorFoldKeeps(rs: seq<Role>, base: Permissions, j: nat)
    requires j <= |rs|
    requires IsAdministrator(ListFold(rs[..j], RolePermissions, Grant, base))
    ensures IsAdministrator(ListFold(rs, RolePermissions, Grant, base))
  {
    GrantLaws();
    ListFoldKeeps(rs, RolePermissions, Grant, base, j, IsAdministrator);
  }

  /** The owner has every permission, timed out or not. */
  lemma OwnerHasAllPermissions(guilds: map<ID, Guild>, roles: map<Key, Role>, member: Member, now: Time)
    requires IsGuildOwner(guilds, member)
    ensures MemberPermissionsOf(guilds, roles, member, now) == PermissionsAll
  {
  }

  /** A timed-out non-owner without the Administrator short cut keeps at most View Channel and Read Message History. */
  lemma TimeoutLeavesOnlyViewAndHistory(guilds: map<ID, Guild>, roles: map<Key, Role>, member: Member, now: Time)
    requires !IsGuildOwner(guilds, member) && TimedOut(member, now)
    requires MemberPermissionsOf(guilds, roles, member, now) != PermissionsAll
    ensures MemberPermissionsOf(guilds, roles, member, now) & !TimeoutMask == 0
  {
    MaskKeepsOnlyTimeoutBits(GuildPermissions(roles, member.guildID, MemberRoleSet(roles, member)));
  }

  /**
   * The Administrator short cut is taken inside the role loop, so Administrator granted only
   * through @everyone does not lift a timeout when the member has no cached role.
   */
  lemma EveryoneAdministratorNeedsARole(guilds: map<ID, Guild>, roles: map<Key, Role>, member: Member, now: Time)
    requires !IsGuildOwner(guilds, member) && TimedOut(member, now)
    requires MemberRoleKeys(roles, member) == {}
    ensures MemberPermissionsOf(guilds, roles, member, now) == EveryonePermissions(roles, member.guildID) & TimeoutMask
    ensures !IsAdministrator(MemberPermissionsOf(guilds, roles, member, now))
  {
    assert MemberRoleSet(roles, member) == {};
    TimeoutMaskHasNoAdministrator(EveryonePermissions(roles, member.guildID));
  }

  /** A cached role of the member carrying Administrator gives every permission, even to a timed-out member. */
  lemma RoleAdministratorGivesAll(guilds: map<ID, Guild>, roles: map<Key, Role>, member: Member, now: Time, k: Key)
    requires k in MemberRoleKeys(roles, member)
    requires IsAdministrator(roles[k].permissions)
    ensures MemberPermissionsOf(guilds, roles, member, now) == PermissionsAll
  {
    var rs := MemberRoleSet(roles, member);
    assert roles[k] in rs;
    GrantLaws();
    SetFoldHas(rs, RolePermissions, Grant, EveryonePermissions(roles, member.guildID), roles[k], IsAdministrator);
  }

  // ---------------------------------------------------------------------------------------
  // Channel permission specification

  /** The allow and deny masks of the member's role overwrites, in RoleIDs order, skipping the @everyone role. */
  function RoleOverwriteMasks(ows: seq<PermissionOverwrite>, roleIDs: seq<ID>, guildID: ID): (Permissions, Permissions)
    decreases |roleIDs|
  {
    if roleIDs == [] then (PermissionsNone, PermissionsNone)
    else
      var prev := RoleOverwriteMasks(ows, roleIDs[..|roleIDs| - 1], guildID);
      var roleID := roleIDs[|roleIDs| - 1];
      if roleID == guildID then prev
      else match RoleOverwriteFor(ows, roleID)
        case Some(ow) => (Grant(prev.0, ow.allow), Grant(prev.1, ow.deny))
        case None => prev
  }

  /** The role overwrite masks, plus the member's own overwrite. */
  function OverwriteMasks(ows: seq<PermissionOverwrite>, member: Member, guildID: ID): (Permissions, Permissions)
  {
    var roleMasks := RoleOverwriteMasks(ows, member.roleIDs, guildID);
    match MemberOverwriteFor(ows, member.user.id)
    case Some(ow) => (Grant(roleMasks.0, ow.allow), Grant(roleMasks.1, ow.deny))
    case None => roleMasks
  }

  /** The @everyone overwrite applied to the guild-level permissions: allow first, then deny. */
  function WithEveryoneOverwrite(p: Permissions, ows: seq<PermissionOverwrite>, guildID: ID): Permissions
  {
    match RoleOverwriteFor(ows, guildID)
    case Some(ow) => Revoke(Grant(p, ow.allow), ow.deny)
    case None => p
  }

  /** The overwrites of a channel; a channel without any has an empty list. */
  function ChannelOverwrites(channel: GuildChannel): seq<PermissionOverwrite>
  {
    channel.PermissionOverwrites().GetOr([])
  }

  /**
   * The permissions MemberPermissionsInChannel computes: Administrator at guild level gives
   * every permission; otherwise the @everyone overwrite, then all other overwrites' deny and then
   * their allow, then the timeout mask.
   */
  ghost function MemberPermissionsInChannelOf(guilds: map<ID, Guild>, roles: map<Key, Role>, channel: GuildChannel,
                                              member: Member, now: Time): Permissions
  {
    var p := MemberPermissionsOf(guilds, roles, member, now);
    if IsAdministrator(p) then PermissionsAll
    else
      var everyone := WithEveryoneOverwrite(p, ChannelOverwrites(channel), channel.GuildID());
      var masks := OverwriteMasks(ChannelOverwrites(channel), member, channel.GuildID());
      ApplyTimeout(Grant(Revoke(everyone, masks.1), masks.0), member, now)
  }

  lemma AllowWinsOverDeny(p: Permissions, allow: Permissions, deny: Permissions)
    ensures ((p & !deny) | allow) & allow == allow
  {
  }

  /** Among the non-@everyone overwrites an allowed bit is kept even when another overwrite denies it (before the timeout mask). */
  lemma ChannelAllowWins(guilds: map<ID, Guild>, roles: map<Key, Role>, channel: GuildChannel, member: Member, now: Time)
    requires !TimedOut(member, now)
    ensures var masks := OverwriteMasks(ChannelOverwrites(channel), member, channel.GuildID());
            MemberPermissionsInChannelOf(guilds, roles, channel, member, now) & masks.0 == masks.0
  {
    var p := MemberPermissionsOf(guilds, roles, member, now);
    var masks := OverwriteMasks(ChannelOverwrites(channel), member, channel.GuildID());
    if !IsAdministrator(p) {
      AllowWinsOverDeny(WithEveryoneOverwrite(p, ChannelOverwrites(channel), channel.GuildID()), masks.0, masks.1);
    }
  }

  lemma AllHasEverything(bits: Permissions)
    ensures PermissionsAll & bits == bits
  {
  }

  /** The guild owner has every permission in every channel: owner rights override every overwrite and any timeout. */
  lemma ChannelOwnerGetsAll(guilds: map<ID, Guild>, roles: map<Key, Role>, channel: GuildChannel, member: Member, now: Time)
    requires IsGuildOwner(guilds, member)
    ensures MemberPermissionsInChannelOf(guilds, roles, channel, member, now) == PermissionsAll
  {
    AllHasEverything(PermissionAdministrator);
  }

  /** Every emoji sits under its own guild ID and emoji ID, where AddEmoji puts it. */
  predicate KeyedEmojis(emojis: map<Key, Emoji>)
  {
    forall k :: k in emojis ==> k == (emojis[k].guildID, emojis[k].ID())
  }

  /** Every sticker sits under its own guild ID and sticker ID, where AddSticker puts it. */
  predicate KeyedStickers(stickers: map<Key, Sticker>)
  {
    forall k :: k in stickers ==> stickers[k].guildID == Some(k.0) && stickers[k].id == k.1
  }

  // ---------------------------------------------------------------------------------------
  // The caches

  class Caches {
    var cacheFlags: set<CacheFlag>
    var selfUser: Option<OAuth2User>
    var unreadyGuilds: set<ID>
    var unavailableGuilds: set<ID>
    var guilds: map<ID, Guild>
    var channels: map<ID, GuildChannel>
    var scheduledEvents: map<Key, ScheduledEvent>
    var roles: map<Key, Role>
    var members: map<Key, Member>
    var presences: map<Key, Presence>
    var voiceStates: map<Key, VoiceState>
    var messages: map<Key, Message>
    var emojis: map<Key, Emoji>
    var stickers: map<Key, Sticker>

    ghost function State(): CacheState
      reads this
    {
      CacheState(cacheFlags, selfUser, unreadyGuilds, unavailableGuilds, guilds, channels, scheduledEvents,
                 roles, members, presences, voiceStates, messages, emojis, stickers)
    }

    /** New(WithCaches(flags...)): every cache empty, no self user. */
    constructor (flags: set<CacheFlag>)
      ensures State() == CacheState(flags, None, {}, {}, map[], map[], map[], map[], map[], map[], map[], map[], map[], map[])
    {
      cacheFlags, selfUser, unreadyGuilds, unavailableGuilds := flags, None, {}, {};
      guilds, channels, scheduledEvents, roles, members := map[], map[], map[], map[], map[];
      presences, voiceStates, messages, emojis, stickers := map[], map[], map[], map[], map[];
    }

    /** CacheFlags().Missing(flag) */
    predicate Missing(flag: CacheFlag)
      reads this
    {
      flag !in cacheFlags
    }

    // Self user

    method SelfUser() returns (user: OAuth2User, ok: bool)
      ensures ok <==> selfUser.Some?
      ensures ok ==> user == selfUser.value
      ensures !ok ==> user == ZeroOAuth2User
    {
      if selfUser.None? {
        return ZeroOAuth2User, false;
      }
      return selfUser.value, true;
    }

    method SetSelfUser(user: OAuth2User)
      modifies this
      ensures State() == old(State()).(selfUser := Some(user))
    {
      selfUser := Some(user);
    }

    // Guilds and the unready / unavailable sets

    predicate IsGuildUnready(guildID: ID)
      reads this
    {
      guildID in unreadyGuilds
    }

    method SetGuildUnready(guildID: ID, unready: bool)
      modifies this
      ensures State() == old(State()).(unreadyGuilds := SetMembership(old(unreadyGuilds), guildID, unready))
    {
      if guildID in unreadyGuilds && !unready {
        unreadyGuilds := unreadyGuilds - {guildID};
      } else if guildID !in unreadyGuilds && unready {
        unreadyGuilds := unreadyGuilds + {guildID};
      }
    }

    method UnreadyGuildIDs() returns (ids: seq<ID>)
      ensures forall id :: id in ids <==> id in unreadyGuilds
      ensures Distinct(ids) && |ids| == |unreadyGuilds|
    {
      ids := Enumerate(unreadyGuilds);
    }

    predicate IsGuildUnavailable(guildID: ID)
      reads this
    {
      guildID in unavailableGuilds
    }

    method SetGuildUnavailable(guildID: ID, unavailable: bool)
      modifies this
      ensures State() == old(State()).(unavailableGuilds := SetMembership(old(unavailableGuilds), guildID, unavailable))
    {
      if guildID in unavailableGuilds && !unavailable {
        unavailableGuilds := unavailableGuilds - {guildID};
      } else if guildID !in unavailableGuilds && unavailable {
        unavailableGuilds := unavailableGuilds + {guildID};
      }
    }

    method UnavailableGuildIDs() returns (ids: seq<ID>)
      ensures forall id :: id in ids <==> id in unavailableGuilds
      ensures Distinct(ids) && |ids| == |unavailableGuilds|
    {
      ids := Enumerate(unavailableGuilds);
    }

    /** Guild(guildID): the cached guild, or the zero guild and false. */
    method Guild(guildID: ID) returns (guild: Entities.Guild, ok: bool)
      ensures ok <==> guildID in guilds
      ensures guild == if ok then guilds[guildID] else ZeroGuild
    {
      ok := guildID in guilds;
      guild := if ok then guilds[guildID] else ZeroGuild;
    }

    method AddGuild(guild: Guild)
      modifies this
      ensures State() == old(State()).(guilds := old(guilds)[guild.id := guild])
    {
      guilds := guilds[guild.id := guild];
    }

    method RemoveGuild(guildID: ID) returns (guild: Guild, ok: bool)
      modifies this
      ensures ok <==> guildID in old(guilds)
      ensures guild == if ok then old(guilds)[guildID] else ZeroGuild
      ensures State() == old(State()).(guilds := old(guilds) - {guildID})
    {
      ok := guildID in guilds;
      guild := if ok then guilds[guildID] else ZeroGuild;
      guilds := guilds - {guildID};
    }

    // Channels

    /** Channel(channelID): the cached channel, if any. */
    method Channel(channelID: ID) returns (channel: Option<GuildChannel>)
      ensures channel.Some? <==> channelID in channels
      ensures channel.Some? ==> channel.value == channels[channelID]
    {
      channel := if channelID in channels then Some(channels[channelID]) else None;
    }

    method AddChannel(channel: GuildChannel)
      modifies this
      ensures State() == old(State()).(channels := old(channels)[channel.ID() := channel])
    {
      channels := channels[channel.ID() := channel];
    }

    method RemoveChannel(channelID: ID) returns (channel: Option<GuildChannel>)
      modifies this
      ensures channel.Some? <==> channelID in old(channels)
      ensures channel.Some? ==> channel.value == old(channels)[channelID]
      ensures State() == old(State()).(channels := old(channels) - {channelID})
    {
      channel := if channelID in channels then Some(channels[channelID]) else None;
      channels := channels - {channelID};
    }

    method RemoveChannelsByGuildID(guildID: ID)
      modifies this
      ensures State() == old(State()).(channels := ChannelsWithoutGuild(old(channels), guildID))
    {
      channels := ChannelsWithoutGuild(channels, guildID);
    }

    /** The IDs of the cached channels of a guild. */
    function GuildChannelIDs(guildID: ID): set<ID>
      reads this
    {
      set id | id in channels && channels[id].GuildID() == guildID
    }

    /** ChannelsForGuild: the cached channels of one guild, in the order the cache is ranged over. */
    method ChannelsForGuild(guildID: ID) returns (r: seq<GuildChannel>)
      ensures forall c :: c in r <==> exists id :: id in channels && channels[id] == c && c.GuildID() == guildID
      ensures |r| == |GuildChannelIDs(guildID)|
    {
      var chs := channels;
      var ids := SelectKeys(chs, (id: ID, c: GuildChannel) => c.GuildID() == guildID);
      DistinctCardinality(ids);
      assert (set id: ID | id in ids) == GuildChannelIDs(guildID);
      r := seq(|ids|, i requires 0 <= i < |ids| => chs[ids[i]]);
      forall c | c in r ensures exists id :: id in channels && channels[id] == c && c.GuildID() == guildID {
        var i :| 0 <= i < |r| && r[i] == c;
        assert channels[ids[i]] == c;
      }
      forall c | exists id :: id in channels && channels[id] == c && c.GuildID() == guildID ensures c in r {
        var id :| id in channels && channels[id] == c && c.GuildID() == guildID;
        var i :| 0 <= i < |ids| && ids[i] == id;
        assert r[i] == c;
      }
    }

    /** GuildMessageChannel: the cached channel with that ID when it is a text or voice channel. */
    function GuildMessageChannel(channelID: ID): (r: Option<GuildChannel>)
      reads this
      ensures r.Some? <==> channelID in channels && channels[channelID].IsGuildMessageChannel()
      ensures r.Some? ==> r.value == channels[channelID] && r.value.IsGuildMessageChannel()
    {
      if channelID in channels && channels[channelID].IsGuildMessageChannel() then Some(channels[channelID]) else None
    }

    /** GuildAudioChannel: the cached channel with that ID when it is a voice channel. */
    function GuildAudioChannel(channelID: ID): (r: Option<GuildChannel>)
      reads this
      ensures r.Some? <==> channelID in channels && channels[channelID].IsGuildAudioChannel()
      ensures r.Some? ==> r.value == channels[channelID] && r.value.AsGuildVoice?
    {
      if channelID in channels && channels[channelID].IsGuildAudioChannel() then Some(channels[channelID]) else None
    }

    /** GuildTextChannel / GuildVoiceChannel / GuildCategoryChannel: the variant's record, if that is what is cached. */
    function GuildTextChannel(channelID: ID): (r: Option<Channels.GuildTextChannel>)
      reads this
      ensures r.Some? <==> channelID in channels && channels[channelID].AsGuildText?
      ensures r.Some? ==> channels[channelID] == AsGuildText(r.value)
    {
      if channelID in channels && channels[channelID].AsGuildText? then Some(channels[channelID].guildText) else None
    }

    function GuildVoiceChannel(channelID: ID): (r: Option<Channels.GuildVoiceChannel>)
      reads this
      ensures r.Some? <==> channelID in channels && channels[channelID].AsGuildVoice?
      ensures r.Some? ==> channels[channelID] == AsGuildVoice(r.value)
    {
      if channelID in channels && channels[channelID].AsGuildVoice? then Some(channels[channelID].guildVoice) else None
    }

    function GuildCategoryChannel(channelID: ID): (r: Option<Channels.GuildCategoryChannel>)
      reads this
      ensures r.Some? <==> channelID in channels && channels[channelID].AsGuildCategory?
      ensures r.Some? ==> channels[channelID] == AsGuildCategory(r.value)
    {
      if channelID in channels && channels[channelID].AsGuildCategory? then Some(channels[channelID].guildCategory) else None
    }

    // Grouped caches

    method AddGuildScheduledEvent(e: ScheduledEvent)
      modifies this
      ensures State() == old(State()).(scheduledEvents := old(scheduledEvents)[(e.guildID, e.id) := e])
    {
      scheduledEvents := scheduledEvents[(e.guildID, e.id) := e];
    }

    method RemoveGuildScheduledEventsByGuildID(guildID: ID)
      modifies this
      ensures State() == old(State()).(scheduledEvents := GroupRemoved(old(scheduledEvents), guildID))
    {
      scheduledEvents := GroupRemoved(scheduledEvents, guildID);
    }

    method AddRole(role: Role)
      modifies this
      ensures State() == old(State()).(roles := old(roles)[(role.guildID, role.id) := role])
    {
      roles := roles[(role.guildID, role.id) := role];
    }

    method RemoveRolesByGuildID(guildID: ID)
      modifies this
      ensures State() == old(State()).(roles := GroupRemoved(old(roles), guildID))
    {
      roles := GroupRemoved(roles, guildID);
    }

    method AddMember(member: Member)
      modifies this
      ensures State() == old(State()).(members := old(members)[(member.guildID, member.user.id) := member])
    {
      members := members[(member.guildID, member.user.id) := member];
    }

    method RemoveMembersByGuildID(guildID: ID)
      modifies this
      ensures State() == old(State()).(members := GroupRemoved(old(members), guildID))
    {
      members := GroupRemoved(members, guildID);
    }

    /** Presence(guildID, userID): the cached presence of a user in a guild, if any. */
    method Presence(guildID: ID, userID: ID) returns (presence: Option<Entities.Presence>)
      ensures presence.Some? <==> (guildID, userID) in presences
      ensures presence.Some? ==> presence.value == presences[(guildID, userID)]
    {
      presence := if (guildID, userID) in presences then Some(presences[(guildID, userID)]) else None;
    }

    method AddPresence(presence: Presence)
      modifies this
      ensures State() == old(State()).(presences := old(presences)[(presence.guildID, presence.userID) := presence])
    {
      presences := presences[(presence.guildID, presence.userID) := presence];
    }

    method RemovePresencesByGuildID(guildID: ID)
      modifies this
      ensures State() == old(State()).(presences := GroupRemoved(old(presences), guildID))
    {
      presences := GroupRemoved(presences, guildID);
    }

    method AddVoiceState(voiceState: VoiceState)
      modifies this
      ensures State() == old(State()).(voiceStates := old(voiceStates)[(voiceState.guildID, voiceState.userID) := voiceState])
    {
      voiceStates := voiceStates[(voiceState.guildID, voiceState.userID) := voiceState];
    }

    method RemoveVoiceStatesByGuildID(guildID: ID)
      modifies this
      ensures State() == old(State()).(voiceStates := GroupRemoved(old(voiceStates), guildID))
    {
      voiceStates := GroupRemoved(voiceStates, guildID);
    }

    /** Message(channelID, messageID): the cached message, or the zero message and false. */
    method Message(channelID: ID, messageID: ID) returns (message: Messages.Message, ok: bool)
      ensures ok <==> (channelID, messageID) in messages
      ensures message == if ok then messages[(channelID, messageID)] else ZeroMessage
    {
      ok := (channelID, messageID) in messages;
      message := if ok then messages[(channelID, messageID)] else ZeroMessage;
    }

    method AddMessage(message: Message)
      modifies this
      ensures State() == old(State()).(messages := old(messages)[(message.channelID, message.id) := message])
    {
      messages := messages[(message.channelID, message.id) := message];
    }

    method RemoveMessage(channelID: ID, messageID: ID) returns (message: Message, ok: bool)
      modifies this
      ensures ok <==> (channelID, messageID) in old(messages)
      ensures message == if ok then old(messages)[(channelID, messageID)] else ZeroMessage
      ensures State() == old(State()).(messages := old(messages) - {(channelID, messageID)})
    {
      ok := (channelID, messageID) in messages;
      message := if ok then messages[(channelID, messageID)] else ZeroMessage;
      messages := messages - {(channelID, messageID)};
    }

    method RemoveMessagesByChannelID(channelID: ID)
      modifies this
      ensures State() == old(State()).(messages := GroupRemoved(old(messages), channelID))
    {
      messages := GroupRemoved(messages, channelID);
    }

    method RemoveMessagesByGuildID(guildID: ID)
      modifies this
      ensures State() == old(State()).(messages := MessagesWithoutGuild(old(messages), guildID))
    {
      messages := MessagesWithoutGuild(messages, guildID);
    }

    /** Every cached emoji sits under its own guild ID and emoji ID, where AddEmoji puts it. */
    predicate EmojisKeyed()
      reads this
    {
      KeyedEmojis(emojis)
    }

    /** Emojis(guildID): the cached emojis of one guild, in the order the cache is ranged over. */
    method Emojis(guildID: ID) returns (r: seq<Emoji>)
      ensures forall e :: e in r <==> exists id :: (guildID, id) in emojis && emojis[(guildID, id)] == e
    {
      r := GroupValues(emojis, guildID);
    }

    method AddEmoji(emoji: Emoji)
      modifies this
      ensures State() == old(State()).(emojis := old(emojis)[(emoji.guildID, emoji.ID()) := emoji])
    {
      emojis := emojis[(emoji.guildID, emoji.ID()) := emoji];
    }

    method RemoveEmoji(guildID: ID, emojiID: ID)
      modifies this
      ensures State() == old(State()).(emojis := old(emojis) - {(guildID, emojiID)})
    {
      emojis := emojis - {(guildID, emojiID)};
    }

    method RemoveEmojisByGuildID(guildID: ID)
      modifies this
      ensures State() == old(State()).(emojis := GroupRemoved(old(emojis), guildID))
    {
      emojis := GroupRemoved(emojis, guildID);
    }

    /** Every cached sticker sits under its own guild ID and sticker ID, where AddSticker puts it. */
    predicate StickersKeyed()
      reads this
    {
      KeyedStickers(stickers)
    }

    /** Stickers(guildID): the cached stickers of one guild, in the order the cache is ranged over. */
    method Stickers(guildID: ID) returns (r: seq<Sticker>)
      ensures forall s :: s in r <==> exists id :: (guildID, id) in stickers && stickers[(guildID, id)] == s
    {
      r := GroupValues(stickers, guildID);
    }

    /** AddSticker: a sticker without a guild ID is not cached. */
    method AddSticker(sticker: Sticker)
      modifies this
      ensures sticker.guildID.None? ==> State() == old(State())
      ensures sticker.guildID.Some? ==>
        State() == old(State()).(stickers := old(stickers)[(sticker.guildID.value, sticker.id) := sticker])
    {
      if sticker.guildID.None? {
        return;
      }
      stickers := stickers[(sticker.guildID.value, sticker.id) := sticker];
    }

    method RemoveStickersByGuildID(guildID: ID)
      modifies this
      ensures State() == old(State()).(stickers := GroupRemoved(old(stickers), guildID))
    {
      stickers := GroupRemoved(stickers, guildID);
    }

    // Derived queries

    /** MemberRoles: one entry per cached role of the member's guild whose ID the member lists. */
    method MemberRoles(member: Member) returns (rs: seq<Role>)
      ensures forall r :: r in rs <==> r in MemberRoleSet(roles, member)
      ensures |rs| == |MemberRoleKeys(roles, member)|
    {
      var rls := roles;
      var ks := SelectKeys(rls, (k: Key, r: Role) => k.0 == member.guildID && r.id in member.roleIDs);
      DistinctCardinality(ks);
      assert (set k | k in ks) == MemberRoleKeys(roles, member);
      rs := seq(|ks|, i requires 0 <= i < |ks| => rls[ks[i]]);
      forall r | r in rs ensures r in MemberRoleSet(roles, member) {
        var i :| 0 <= i < |rs| && rs[i] == r;
        assert ks[i] in MemberRoleKeys(roles, member);
      }
      forall r | r in MemberRoleSet(roles, member) ensures r in rs {
        var k :| k in MemberRoleKeys(roles, member) && roles[k] == r;
        var i :| 0 <= i < |ks| && ks[i] == k;
        assert rs[i] == r;
      }
    }

    /** MemberPermissions, with time.Now() passed in as now. */
    method MemberPermissions(member: Member, now: Time) returns (permissions: Permissions)
      ensures permissions == MemberPermissionsOf(guilds, roles, member, now)
    {
      if member.guildID in guilds && guilds[member.guildID].ownerID == member.user.id {
        return PermissionsAll;
      }
      permissions := PermissionsNone;
      if (member.guildID, member.guildID) in roles {
        permissions := roles[(member.guildID, member.guildID)].permissions;
      }
      ghost var base := permissions;
      var rs := MemberRoles(member);
      RoleListGuildPermissions(roles, member, rs);
      for i := 0 to |rs|
        invariant permissions == ListFold(rs[..i], RolePermissions, Grant, base)
        invariant i > 0 ==> !IsAdministrator(permissions)
      {
        assert rs[..i + 1][..i] == rs[..i];
        permissions := Grant(permissions, rs[i].permissions);
        if IsAdministrator(permissions) {
          AdministratorFoldKeeps(rs, base, i + 1);
          return PermissionsAll;
        }
      }
      assert rs[..|rs|] == rs;
      permissions := ApplyTimeout(permissions, member, now);
    }

    /** MemberPermissionsInChannel, with time.Now() passed in as now. */
    method MemberPermissionsInChannel(channel: GuildChannel, member: Member, now: Time) returns (permissions: Permissions)
      ensures permissions == MemberPermissionsInChannelOf(guilds, roles, channel, member, now)
    {
      permissions := MemberPermissions(member, now);
      if IsAdministrator(permissions) {
        return PermissionsAll;
      }
      ghost var guildLevel := permissions;
      var allow, deny := PermissionsNone, PermissionsNone;
      var ows, guildID := ChannelOverwrites(channel), channel.GuildID();
      var everyone := RoleOverwriteFor(ows, guildID);
      if everyone.Some? {
        permissions := Grant(permissions, everyone.value.allow);
        permissions := Revoke(permissions, everyone.value.deny);
      }
      assert permissions == WithEveryoneOverwrite(guildLevel, ows, guildID);
      var roleIDs := member.roleIDs;
      for i := 0 to |roleIDs|
        invariant (allow, deny) == RoleOverwriteMasks(ows, roleIDs[..i], guildID)
      {
        assert roleIDs[..i + 1][..i] == roleIDs[..i];
        var roleID := roleIDs[i];
        if roleID == guildID {
          continue;
        }
        var overwrite := RoleOverwriteFor(ows, roleID);
        if overwrite.Some? {
          allow := Grant(allow, overwrite.value.allow);
          deny := Grant(deny, overwrite.value.deny);
        }
      }
      assert roleIDs[..|roleIDs|] == roleIDs;
      var memberOverwrite := MemberOverwriteFor(ows, member.user.id);
      if memberOverwrite.Some? {
        allow := Grant(allow, memberOverwrite.value.allow);
        deny := Grant(deny, memberOverwrite.value.deny);
      }
      assert (allow, deny) == OverwriteMasks(ows, member, guildID);
      permissions := Revoke(permissions, deny);
      permissions := Grant(permissions, allow);
      permissions := ApplyTimeout(permissions, member, now);
    }

    /** The voice-state keys AudioChannelMembers keeps: in the channel's guild, in that channel, with the member cached. */
    function AudioChannelKeys(guildID: ID, channelID: ID): set<Key>
      reads this
    {
      set k | k in voiceStates && k.0 == guildID && (guildID, voiceStates[k].userID) in members
                && voiceStates[k].channelID == Some(channelID)
    }

    /** AudioChannelMembers: one cached member per cached voice state in the given voice channel. */
    method AudioChannelMembers(channel: GuildChannel) returns (r: seq<Member>)
      requires channel.IsGuildAudioChannel()
      ensures forall m :: m in r <==>
        exists k :: k in AudioChannelKeys(channel.GuildID(), channel.ID()) && members[(channel.GuildID(), voiceStates[k].userID)] == m
      ensures |r| == |AudioChannelKeys(channel.GuildID(), channel.ID())|
    {
      var g, id := channel.GuildID(), channel.ID();
      var ms, vs := members, voiceStates;
      var keep := (k: Key, s: VoiceState) => k.0 == g && (g, s.userID) in ms && s.channelID == Some(id);
      var ks := SelectKeys(vs, keep);
      DistinctCardinality(ks);
      assert (set k | k in ks) == AudioChannelKeys(g, id);
      r := seq(|ks|, i requires 0 <= i < |ks| => ms[(g, vs[ks[i]].userID)]);
      forall m | m in r ensures exists k :: k in AudioChannelKeys(g, id) && members[(g, voiceStates[k].userID)] == m {
        var i :| 0 <= i < |r| && r[i] == m;
        assert ks[i] in AudioChannelKeys(g, id);
      }
      forall m | exists k :: k in AudioChannelKeys(g, id) && members[(g, voiceStates[k].userID)] == m ensures m in r {
        var k :| k in AudioChannelKeys(g, id) && members[(g, voiceStates[k].userID)] == m;
        var i :| 0 <= i < |ks| && ks[i] == k;
        assert r[i] == m;
      }
    }

    /** SelfMember: the cached member of the self user in that guild; nothing before the self user is known. */
    function SelfMember(guildID: ID): (r: Option<Member>)
      reads this
      ensures selfUser.None? ==> r.None?
      ensures selfUser.Some? ==> (r.Some? <==> (guildID, selfUser.value.ID()) in members)
      ensures r.Some? ==> r.value == members[(guildID, selfUser.value.ID())]
    {
      match selfUser
      case None => None
      case Some(u) => if (guildID, u.ID()) in members then Some(members[(guildID, u.ID())]) else None
    }
  }

  /** SelfUser reports nothing until SetSelfUser is called, then the user set last. */
  method SelfUserLastSetWins(c: Caches, u1: OAuth2User, u2: OAuth2User) returns (first: OAuth2User, second: OAuth2User)
    modifies c
    ensures first == u1 && second == u2
  {
    c.SetSelfUser(u1);
    var ok;
    first, ok := c.SelfUser();
    c.SetSelfUser(u2);
    second, ok := c.SelfUser();
  }
}
