// bot/handlers/presence_update_handler.go: a presence update replaces the cached presence of a
// user in a guild and is announced, followed by one event for a changed status, one for a
// changed client status, and one per stopped, started and updated activity.
module PresenceUpdateHandler {
  import opened Wrappers
  import opened Snowflakes
  import opened GoTime
  import opened Emojis
  import opened Entities
  import opened Caches
  import opened BotEvents

  // ---------------------------------------------------------------------------------------
  // The pointer comparisons: each reports whether two optional values differ.

  /** compareStringPtr, compareBoolPtr, compareSnowflakePtr and compareStatusDisplayTypePtr. */
  function ComparePtr<T(==)>(o: Option<T>, n: Option<T>): (r: bool)
    ensures r <==> o != n
  {
    if o.None? && n.None? then false
    else if o.None? || n.None? then true
    else o.value != n.value
  }

  /** comparePartialEmojiPtr: ID, then name, then the animated flag. */
  function ComparePartialEmojiPtr(o: Option<PartialEmoji>, n: Option<PartialEmoji>): (r: bool)
    ensures r <==> o != n
  {
    if o.None? && n.None? then false
    else if o.None? || n.None? then true
    else if o.value.id != n.value.id then true
    else if o.value.name != n.value.name then true
    else o.value.animated != n.value.animated
  }

  /** compareActivityPartyPtr */
  function CompareActivityPartyPtr(o: Option<ActivityParty>, n: Option<ActivityParty>): (r: bool)
    ensures r <==> o != n
  {
    if o.None? && n.None? then false
    else if o.None? || n.None? then true
    else o.value.id != n.value.id || o.value.size != n.value.size
  }

  /** compareActivityAssetsPtr */
  function CompareActivityAssetsPtr(o: Option<ActivityAssets>, n: Option<ActivityAssets>): (r: bool)
    ensures r <==> o != n
  {
    if o.None? && n.None? then false
    else if o.None? || n.None? then true
    else
      var a, b := o.value, n.value;
      a.largeText != b.largeText || a.largeImage != b.largeImage || a.largeURL != b.largeURL
      || a.smallText != b.smallText || a.smallImage != b.smallImage || a.smallURL != b.smallURL
  }

  /** compareActivitySecretsPtr */
  function CompareActivitySecretsPtr(o: Option<ActivitySecrets>, n: Option<ActivitySecrets>): (r: bool)
    ensures r <==> o != n
  {
    if o.None? && n.None? then false
    else if o.None? || n.None? then true
    else o.value.join != n.value.join || o.value.spectate != n.value.spectate || o.value.matchSecret != n.value.matchSecret
  }

  /**
   * compareActivityTimestampsPtr as written: two present timestamp pairs are reported as
   * differing when both instants are Equal, the opposite of the other comparisons.
   */
  function CompareActivityTimestampsPtrAsWritten(o: Option<ActivityTimestamps>, n: Option<ActivityTimestamps>): (r: bool)
    ensures o.Some? && o == n ==> r
    ensures o.None? && n.None? ==> !r
  {
    if o.None? && n.None? then false
    else if o.None? || n.None? then true
    else o.value.start == n.value.start && o.value.end == n.value.end
  }

  /** Two identical present timestamp pairs are reported as differing. */
  lemma CompareTimestampsAsWrittenFlagsEqual(t: ActivityTimestamps)
    ensures CompareActivityTimestampsPtrAsWritten(Some(t), Some(t))
    ensures !CompareActivityTimestampsPtrAsWritten(Some(t), Some(t.(start := t.start + 1)))
  {
  }

  /** compareActivityTimestampsPtr as intended: present pairs differ when either instant does. */
  function CompareActivityTimestampsPtr(o: Option<ActivityTimestamps>, n: Option<ActivityTimestamps>): (r: bool)
    ensures r <==> o != n
  {
    if o.None? && n.None? then false
    else if o.None? || n.None? then true
    else o.value.start != n.value.start || o.value.end != n.value.end
  }

  // ---------------------------------------------------------------------------------------
  // isActivityUpdated

  /**
   * isActivityUpdated as written: the creation instants count as a change when they are Equal,
   * the timestamps through the inverted comparison above, and the button lists when they are
   * equal.
   */
  function IsActivityUpdatedAsWritten(o: Activity, n: Activity): (r: bool)
    ensures o.createdAt == n.createdAt ==> r
    ensures o.buttons == n.buttons ==> r
  {
    o.name != n.name
    || o.activityType != n.activityType
    || ComparePtr(o.url, n.url)
    || o.createdAt == n.createdAt
    || CompareActivityTimestampsPtrAsWritten(o.timestamps, n.timestamps)
    || ComparePtr(o.syncID, n.syncID)
    || o.applicationID != n.applicationID
    || ComparePtr(o.statusDisplayType, n.statusDisplayType)
    || ComparePtr(o.details, n.details)
    || ComparePtr(o.detailsURL, n.detailsURL)
    || ComparePtr(o.state, n.state)
    || ComparePtr(o.stateURL, n.stateURL)
    || ComparePartialEmojiPtr(o.emoji, n.emoji)
    || CompareActivityPartyPtr(o.party, n.party)
    || CompareActivityAssetsPtr(o.assets, n.assets)
    || CompareActivitySecretsPtr(o.secrets, n.secrets)
    || ComparePtr(o.instance, n.instance)
    || o.flags != n.flags
    || o.buttons == n.buttons
  }

  /** As written, every activity counts as updated against itself. */
  lemma ActivityUpdatedAsWrittenAgainstItself(a: Activity)
    ensures IsActivityUpdatedAsWritten(a, a)
  {
  }

  /**
   * isActivityUpdated as intended: every compared field is tested for a difference, so an
   * activity is updated when it differs in anything but its ID.
   */
  function IsActivityUpdated(o: Activity, n: Activity): (r: bool)
    ensures r <==> o.(id := n.id) != n
  {
    o.name != n.name
    || o.activityType != n.activityType
    || ComparePtr(o.url, n.url)
    || o.createdAt != n.createdAt
    || CompareActivityTimestampsPtr(o.timestamps, n.timestamps)
    || ComparePtr(o.syncID, n.syncID)
    || o.applicationID != n.applicationID
    || ComparePtr(o.statusDisplayType, n.statusDisplayType)
    || ComparePtr(o.details, n.details)
    || ComparePtr(o.detailsURL, n.detailsURL)
    || ComparePtr(o.state, n.state)
    || ComparePtr(o.stateURL, n.stateURL)
    || ComparePartialEmojiPtr(o.emoji, n.emoji)
    || CompareActivityPartyPtr(o.party, n.party)
    || CompareActivityAssetsPtr(o.assets, n.assets)
    || CompareActivitySecretsPtr(o.secrets, n.secrets)
    || ComparePtr(o.instance, n.instance)
    || o.flags != n.flags
    || o.buttons != n.buttons
  }

  // ---------------------------------------------------------------------------------------
  // Matching activities by ID

  /** The index of the first activity with the given ID, as the inner loops with break find it. */
  function IndexOfActivity(acts: seq<Activity>, id: string): (r: Option<nat>)
    ensures r.Some? ==> r.value < |acts| && acts[r.value].id == id
                        && forall j :: 0 <= j < r.value ==> acts[j].id != id
    ensures r.None? <==> forall j :: 0 <= j < |acts| ==> acts[j].id != id
    decreases |acts|
  {
    if acts == [] then None
    else if acts[0].id == id then Some(0)
    else match IndexOfActivity(acts[1..], id)
      case None => None
      case Some(k) => Some(k + 1)
  }

  /** The inner loop: the first activity with the given ID, if there is one. */
  method FindActivity(acts: seq<Activity>, id: string) returns (found: bool, activity: Activity)
    ensures found <==> IndexOfActivity(acts, id).Some?
    ensures found ==> activity == acts[IndexOfActivity(acts, id).value]
  {
    for i := 0 to |acts|
      invariant forall j :: 0 <= j < i ==> acts[j].id != id
    {
      if acts[i].id == id {
        return true, acts[i];
      }
    }
    return false, NewActivity("", 0);
  }

  // ---------------------------------------------------------------------------------------
  // The events, as the three loops produce them

  /** One UserActivityStop for each old activity whose ID no new activity has, in the old order. */
  function StopEvents(p: Presence, olds: seq<Activity>): seq<BotEvent>
    decreases |olds|
  {
    if olds == [] then []
    else
      var a := olds[|olds| - 1];
      StopEvents(p, olds[..|olds| - 1])
      + if IndexOfActivity(p.activities, a.id).None? then [UserActivityStop(p.userID, p.guildID, a)] else []
  }

  /** One UserActivityStart for each new activity whose ID no old activity has, in the new order. */
  function StartEvents(p: Presence, news: seq<Activity>, olds: seq<Activity>): seq<BotEvent>
    decreases |news|
  {
    if news == [] then []
    else
      var a := news[|news| - 1];
      StartEvents(p, news[..|news| - 1], olds)
      + if IndexOfActivity(olds, a.id).None? then [UserActivityStart(p.userID, p.guildID, a)] else []
  }

  /** One UserActivityUpdate for each new activity whose first old namesake it updates. */
  function UpdateEvents(p: Presence, news: seq<Activity>, olds: seq<Activity>): seq<BotEvent>
    decreases |news|
  {
    if news == [] then []
    else
      var a := news[|news| - 1];
      var k := IndexOfActivity(olds, a.id);
      UpdateEvents(p, news[..|news| - 1], olds)
      + if k.Some? && IsActivityUpdated(olds[k.value], a) then [UserActivityUpdate(p.userID, p.guildID, a, olds[k.value])] else []
  }

  /** The status, client status and activities the handler compares against: the zero values without a cached presence. */
  function OldParts(cached: Option<Presence>): (OnlineStatus, ClientStatus, seq<Activity>)
  {
    if cached.Some? then (cached.value.status, cached.value.clientStatus, cached.value.activities)
    else ("", ZeroClientStatus, [])
  }

  /**
   * The update loop as written: one UserActivityUpdate for each new activity that the as-written
   * isActivityUpdated finds changed against its first old namesake.
   */
  function UpdateEventsAsWritten(p: Presence, news: seq<Activity>, olds: seq<Activity>): seq<BotEvent>
    decreases |news|
  {
    if news == [] then []
    else
      var a := news[|news| - 1];
      var k := IndexOfActivity(olds, a.id);
      UpdateEventsAsWritten(p, news[..|news| - 1], olds)
      + if k.Some? && IsActivityUpdatedAsWritten(olds[k.value], a) then [UserActivityUpdate(p.userID, p.guildID, a, olds[k.value])] else []
  }

  /** The activity events as the handler is written: the stops, the starts, then the as-written updates. */
  function ActivityEventsAsWritten(p: Presence, oldActivities: seq<Activity>): seq<BotEvent>
  {
    StopEvents(p, oldActivities) + StartEvents(p, p.activities, oldActivities) + UpdateEventsAsWritten(p, p.activities, oldActivities)
  }

  /** The status and client status events: one each when that part of the presence changed. */
  function StatusEvents(oldStatus: OnlineStatus, oldClientStatus: ClientStatus, p: Presence): seq<BotEvent>
  {
    (if oldStatus != p.status then [UserStatusUpdate(p.userID, oldStatus, p.status)] else [])
    + (if oldClientStatus != p.clientStatus then [UserClientStatusUpdate(p.userID, oldClientStatus, p.clientStatus)] else [])
  }

  /** The activity events: the stops, then the starts, then the updates. */
  function ActivityEvents(p: Presence, oldActivities: seq<Activity>): seq<BotEvent>
  {
    StopEvents(p, oldActivities) + StartEvents(p, p.activities, oldActivities) + UpdateEvents(p, p.activities, oldActivities)
  }

  /** Everything the handler dispatches after the PresenceUpdate once presences are cached. */
  function ChangeEvents(cached: Option<Presence>, p: Presence): seq<BotEvent>
  {
    var (oldStatus, oldClientStatus, oldActivities) := OldParts(cached);
    StatusEvents(oldStatus, oldClientStatus, p) + ActivityEvents(p, oldActivities)
  }

  /** Everything the handler dispatches once presences are cached. */
  function PresenceEvents(cached: Option<Presence>, p: Presence): seq<BotEvent>
  {
    [PresenceUpdate(p)] + ChangeEvents(cached, p)
  }

  method DispatchStops(p: Presence, olds: seq<Activity>) returns (events: seq<BotEvent>)
    ensures events == StopEvents(p, olds)
  {
    events := [];
    for i := 0 to |olds|
      invariant events == StopEvents(p, olds[..i])
    {
      var found, _ := FindActivity(p.activities, olds[i].id);
      if !found {
        events := events + [UserActivityStop(p.userID, p.guildID, olds[i])];
      }
      assert olds[..i + 1][..i] == olds[..i];
    }
    assert olds[..|olds|] == olds;
  }

  method DispatchStarts(p: Presence, olds: seq<Activity>) returns (events: seq<BotEvent>)
    ensures events == StartEvents(p, p.activities, olds)
  {
    events := [];
    var news := p.activities;
    for i := 0 to |news|
      invariant events == StartEvents(p, news[..i], olds)
    {
      var found, _ := FindActivity(olds, news[i].id);
      if !found {
        events := events + [UserActivityStart(p.userID, p.guildID, news[i])];
      }
      assert news[..i + 1][..i] == news[..i];
    }
    assert news[..|news|] == news;
  }

  method DispatchUpdates(p: Presence, olds: seq<Activity>) returns (events: seq<BotEvent>)
    ensures events == UpdateEvents(p, p.activities, olds)
  {
    events := [];
    var news := p.activities;
    for i := 0 to |news|
      invariant events == UpdateEvents(p, news[..i], olds)
    {
      var found, oldActivity := FindActivity(olds, news[i].id);
      var updated := found && IsActivityUpdated(oldActivity, news[i]);
      UpdateEventsStep(p, news[..i + 1], olds, found, oldActivity, updated);
      if updated {
        events := events + [UserActivityUpdate(p.userID, p.guildID, news[i], oldActivity)];
      }
      assert news[..i + 1][..i] == news[..i];
    }
    assert news[..|news|] == news;
  }

  /** The update loop as written, with the as-written isActivityUpdated. */
  method DispatchUpdatesAsWritten(p: Presence, olds: seq<Activity>) returns (events: seq<BotEvent>)
    ensures events == UpdateEventsAsWritten(p, p.activities, olds)
  {
    events := [];
    var news := p.activities;
    for i := 0 to |news|
      invariant events == UpdateEventsAsWritten(p, news[..i], olds)
    {
      var found, oldActivity := FindActivity(olds, news[i].id);
      var updated := found && IsActivityUpdatedAsWritten(oldActivity, news[i]);
      UpdateEventsAsWrittenStep(p, news[..i + 1], olds, found, oldActivity, updated);
      if updated {
        events := events + [UserActivityUpdate(p.userID, p.guildID, news[i], oldActivity)];
      }
      assert news[..i + 1][..i] == news[..i];
    }
    assert news[..|news|] == news;
  }

  /** One step of the as-written update loop, in terms of what FindActivity returned. */
  lemma UpdateEventsAsWrittenStep(p: Presence, news: seq<Activity>, olds: seq<Activity>, found: bool, oldActivity: Activity, updated: bool)
    requires news != []
    requires found <==> IndexOfActivity(olds, news[|news| - 1].id).Some?
    requires found ==> oldActivity == olds[IndexOfActivity(olds, news[|news| - 1].id).value]
    requires updated == (found && IsActivityUpdatedAsWritten(oldActivity, news[|news| - 1]))
    ensures UpdateEventsAsWritten(p, news, olds)
            == UpdateEventsAsWritten(p, news[..|news| - 1], olds)
               + if updated then [UserActivityUpdate(p.userID, p.guildID, news[|news| - 1], oldActivity)] else []
  {
  }

  /** The status and client status checks; the client status is compared field by field. */
  method DispatchStatus(oldStatus: OnlineStatus, oldClientStatus: ClientStatus, p: Presence) returns (events: seq<BotEvent>)
    ensures events == StatusEvents(oldStatus, oldClientStatus, p)
  {
    events := [];
    if oldStatus != p.status {
      events := events + [UserStatusUpdate(p.userID, oldStatus, p.status)];
    }
    if oldClientStatus.desktop != p.clientStatus.desktop || oldClientStatus.mobile != p.clientStatus.mobile
       || oldClientStatus.web != p.clientStatus.web {
      events := events + [UserClientStatusUpdate(p.userID, oldClientStatus, p.clientStatus)];
    }
  }

  /** One step of the update loop, in terms of what FindActivity returned. */
  lemma UpdateEventsStep(p: Presence, news: seq<Activity>, olds: seq<Activity>, found: bool, oldActivity: Activity, updated: bool)
    requires news != []
    requires found <==> IndexOfActivity(olds, news[|news| - 1].id).Some?
    requires found ==> oldActivity == olds[IndexOfActivity(olds, news[|news| - 1].id).value]
    requires updated == (found && IsActivityUpdated(oldActivity, news[|news| - 1]))
    ensures UpdateEvents(p, news, olds)
            == UpdateEvents(p, news[..|news| - 1], olds)
               + if updated then [UserActivityUpdate(p.userID, p.guildID, news[|news| - 1], oldActivity)] else []
  {
  }

  /** The events after the PresenceUpdate: the status checks, then the three activity loops. */
  method DispatchChanges(cached: Option<Presence>, event: Presence) returns (events: seq<BotEvent>)
    ensures events == ChangeEvents(cached, event)
  {
    var (oldStatus, oldClientStatus, oldActivities) := OldParts(cached);
    var statusEvents := DispatchStatus(oldStatus, oldClientStatus, event);
    var stops := DispatchStops(event, oldActivities);
    var starts := DispatchStarts(event, oldActivities);
    var updates := DispatchUpdates(event, oldActivities);
    events := statusEvents + (stops + starts + updates);
  }

  /** gatewayHandlerPresenceUpdate */
  method HandlePresenceUpdate(c: Caches, event: Presence) returns (events: seq<BotEvent>)
    modifies c
    ensures FlagPresences !in old(c.cacheFlags) ==> events == [PresenceUpdate(event)] && c.State() == old(c.State())
    ensures FlagPresences in old(c.cacheFlags) ==>
              var key := (event.guildID, event.userID);
              && events == PresenceEvents(if key in old(c.presences) then Some(old(c.presences)[key]) else None, event)
              && c.State() == old(c.State()).(presences := old(c.presences)[key := event])
  {
    events := [PresenceUpdate(event)];
    if c.Missing(FlagPresences) {
      return;
    }
    var cached := c.Presence(event.guildID, event.userID);
    c.AddPresence(event);
    var changes := DispatchChanges(cached, event);
    events := events + changes;
  }

  // ---------------------------------------------------------------------------------------
  // What the events say

  /** An old activity is announced as stopped iff no new activity has its ID. */
  lemma {:induction false} StopEventsExactly(p: Presence, olds: seq<Activity>, a: Activity)
    ensures UserActivityStop(p.userID, p.guildID, a) in StopEvents(p, olds)
            <==> a in olds && forall j :: 0 <= j < |p.activities| ==> p.activities[j].id != a.id
    decreases |olds|
  {
    if olds != [] {
      var init := olds[..|olds| - 1];
      StopEventsExactly(p, init, a);
      assert olds == init + [olds[|olds| - 1]];
    }
  }

  /** A new activity is announced as started iff no old activity has its ID. */
  lemma {:induction false} StartEventsExactly(p: Presence, news: seq<Activity>, olds: seq<Activity>, a: Activity)
    ensures UserActivityStart(p.userID, p.guildID, a) in StartEvents(p, news, olds)
            <==> a in news && forall j :: 0 <= j < |olds| ==> olds[j].id != a.id
    decreases |news|
  {
    if news != [] {
      var init := news[..|news| - 1];
      StartEventsExactly(p, init, olds, a);
      assert news == init + [news[|news| - 1]];
    }
  }

  /** No two activities of the list share an ID. */
  predicate DistinctActivityIDs(acts: seq<Activity>)
  {
    forall i, j :: 0 <= i < j < |acts| ==> acts[i].id != acts[j].id
  }

  /** Against the same list with distinct IDs, no activity is announced as updated. */
  lemma {:induction false} UpdateEventsAgainstItself(p: Presence, news: seq<Activity>, olds: seq<Activity>)
    requires DistinctActivityIDs(olds)
    requires news <= olds
    ensures UpdateEvents(p, news, olds) == []
    decreases |news|
  {
    if news != [] {
      var i := |news| - 1;
      UpdateEventsAgainstItself(p, news[..i], olds);
      var k := IndexOfActivity(olds, news[i].id);
      assert olds[i] == news[i];
      assert k.Some? && k.value == i;
      assert !IsActivityUpdated(olds[i], news[i]);
    }
  }

  /** Re-sending the cached presence, with distinct activity IDs, dispatches nothing but the PresenceUpdate. */
  lemma ResentPresenceIsQuiet(p: Presence)
    requires DistinctActivityIDs(p.activities)
    ensures PresenceEvents(Some(p), p) == [PresenceUpdate(p)]
  {
    UpdateEventsAgainstItself(p, p.activities, p.activities);
    NoStopsOrStartsAgainstItself(p);
  }

  /** Every stop event is a UserActivityStop of the presence's user and guild. */
  lemma {:induction false} StopEventKind(p: Presence, olds: seq<Activity>, i: int)
    requires 0 <= i < |StopEvents(p, olds)|
    ensures var e := StopEvents(p, olds)[i];
            e.UserActivityStop? && e == UserActivityStop(p.userID, p.guildID, e.activity)
    decreases |olds|
  {
    var init := olds[..|olds| - 1];
    if i < |StopEvents(p, init)| {
      StopEventKind(p, init, i);
    }
  }

  /** Every start event is a UserActivityStart of the presence's user and guild. */
  lemma {:induction false} StartEventKind(p: Presence, news: seq<Activity>, olds: seq<Activity>, i: int)
    requires 0 <= i < |StartEvents(p, news, olds)|
    ensures var e := StartEvents(p, news, olds)[i];
            e.UserActivityStart? && e == UserActivityStart(p.userID, p.guildID, e.activity)
    decreases |news|
  {
    var init := news[..|news| - 1];
    if i < |StartEvents(p, init, olds)| {
      StartEventKind(p, init, olds, i);
    }
  }

  /**
   * As written, the update loop run against the same list with distinct IDs announces every
   * activity as updated, paired with itself.
   */
  lemma {:induction false} UpdateEventsAsWrittenAgainstItself(p: Presence, news: seq<Activity>, olds: seq<Activity>)
    requires DistinctActivityIDs(olds)
    requires news <= olds
    ensures |UpdateEventsAsWritten(p, news, olds)| == |news|
    ensures forall i :: 0 <= i < |news| ==>
              UpdateEventsAsWritten(p, news, olds)[i] == UserActivityUpdate(p.userID, p.guildID, news[i], news[i])
    decreases |news|
  {
    if news != [] {
      var i := |news| - 1;
      UpdateEventsAsWrittenAgainstItself(p, news[..i], olds);
      var k := IndexOfActivity(olds, news[i].id);
      assert olds[i] == news[i];
      assert k.Some? && k.value == i;
      ActivityUpdatedAsWrittenAgainstItself(news[i]);
    }
  }

  /**
   * As written, re-sending the cached presence with distinct activity IDs starts and stops
   * nothing but announces every one of its activities as updated.
   */
  lemma ResentPresenceUpdatesEveryActivityAsWritten(p: Presence)
    requires DistinctActivityIDs(p.activities)
    ensures ActivityEventsAsWritten(p, p.activities) == UpdateEventsAsWritten(p, p.activities, p.activities)
    ensures |ActivityEventsAsWritten(p, p.activities)| == |p.activities|
    ensures forall i :: 0 <= i < |p.activities| ==>
              ActivityEventsAsWritten(p, p.activities)[i] == UserActivityUpdate(p.userID, p.guildID, p.activities[i], p.activities[i])
  {
    UpdateEventsAsWrittenAgainstItself(p, p.activities, p.activities);
    NoStopsOrStartsAgainstItself(p);
  }

  /** Against the cached activities themselves, nothing is stopped or started. */
  lemma NoStopsOrStartsAgainstItself(p: Presence)
    ensures StopEvents(p, p.activities) == []
    ensures StartEvents(p, p.activities, p.activities) == []
  {
    if StopEvents(p, p.activities) != [] {
      var e := StopEvents(p, p.activities)[0];
      StopEventKind(p, p.activities, 0);
      StopEventsExactly(p, p.activities, e.activity);
      assert false;
    }
    if StartEvents(p, p.activities, p.activities) != [] {
      var e := StartEvents(p, p.activities, p.activities)[0];
      StartEventKind(p, p.activities, p.activities, 0);
      StartEventsExactly(p, p.activities, p.activities, e.activity);
      assert false;
    }
  }

  /** As written, re-sending a presence with one activity announces that activity as updated. */
  lemma ResentPresenceAnnouncesUpdateAsWritten(p: Presence, a: Activity)
    requires p.activities == [a]
    ensures var k := IndexOfActivity(p.activities, a.id);
            k == Some(0) && IsActivityUpdatedAsWritten(p.activities[k.value], a)
  {
  }
}
