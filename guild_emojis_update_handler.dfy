// bot/handlers/guild_emojis_update_handler.go: the gateway sends the full emoji list of a guild;
// the handler diffs it against the cached emojis of that guild, writes the differences to the
// cache and dispatches one event per created, updated and deleted emoji.
module GuildEmojisUpdateHandler {
  import opened Snowflakes
  import opened Emojis
  import opened GatewayEvents
  import opened Caches
  import opened BotEvents
  import opened ExpressionDiffs

  function EmojiID(e: Emoji): ID
  {
    e.ID()
  }

  /**
   * isEmojiUpdated: an emoji counts as updated iff its name changed. Only a real change counts,
   * and when nothing but the name can differ, every difference counts.
   */
  function IsEmojiUpdated(o: Emoji, n: Emoji): (r: bool)
    ensures r ==> o != n
    ensures o.(partial := o.partial.(name := n.partial.name)) == n ==> (r <==> o != n)
  {
    o.partial.name != n.partial.name
  }

  /** The EmojiCreate events of the created loop, one per key in the order ranged over. */
  function CreateEvents(guildID: ID, created: map<ID, Emoji>, order: seq<ID>): seq<BotEvent>
    requires forall i :: 0 <= i < |order| ==> order[i] in created
  {
    if order == [] then []
    else CreateEvents(guildID, created, order[..|order| - 1]) + [EmojiCreate(guildID, created[order[|order| - 1]])]
  }

  /** The EmojiUpdate events of the updated loop, carrying the new and the old emoji. */
  function UpdateEvents(guildID: ID, updated: map<ID, (Emoji, Emoji)>, order: seq<ID>): seq<BotEvent>
    requires forall i :: 0 <= i < |order| ==> order[i] in updated
  {
    if order == [] then []
    else
      var e := updated[order[|order| - 1]];
      UpdateEvents(guildID, updated, order[..|order| - 1]) + [EmojiUpdate(guildID, e.1, e.0)]
  }

  /** The EmojiDelete events of the deleted loop. */
  function DeleteEvents(guildID: ID, deleted: map<ID, Emoji>, order: seq<ID>): seq<BotEvent>
    requires forall i :: 0 <= i < |order| ==> order[i] in deleted
  {
    if order == [] then []
    else DeleteEvents(guildID, deleted, order[..|order| - 1]) + [EmojiDelete(guildID, deleted[order[|order| - 1]])]
  }

  /** Event i of the created loop is the EmojiCreate of the i-th key ranged over. */
  lemma {:induction false} CreateEventsAt(g: ID, created: map<ID, Emoji>, order: seq<ID>)
    requires forall i :: 0 <= i < |order| ==> order[i] in created
    ensures |CreateEvents(g, created, order)| == |order|
    ensures forall i :: 0 <= i < |order| ==> CreateEvents(g, created, order)[i] == EmojiCreate(g, created[order[i]])
    decreases |order|
  {
    if order != [] {
      CreateEventsAt(g, created, order[..|order| - 1]);
    }
  }

  /** Whatever order the map is ranged in, every created emoji is announced once, and nothing else is. */
  lemma CreateEventsCover(g: ID, created: map<ID, Emoji>, order: seq<ID>)
    requires Enumerates(order, created.Keys)
    ensures |CreateEvents(g, created, order)| == |created|
    ensures forall id :: id in created ==> EmojiCreate(g, created[id]) in CreateEvents(g, created, order)
    ensures forall e :: e in CreateEvents(g, created, order) ==> e.EmojiCreate? && e.guildID == g && e.emoji in created.Values
  {
    CreateEventsAt(g, created, order);
    EnumeratesCardinality(order, created.Keys);
    CreateEventsAnnounceAll(g, created, order);
    CreateEventsOnlyCreated(g, created, order);
  }

  lemma CreateEventsAnnounceAll(g: ID, created: map<ID, Emoji>, order: seq<ID>)
    requires forall i :: 0 <= i < |order| ==> order[i] in created
    requires forall id :: id in created ==> id in order
    ensures forall id :: id in created ==> EmojiCreate(g, created[id]) in CreateEvents(g, created, order)
  {
    var events := CreateEvents(g, created, order);
    CreateEventsAt(g, created, order);
    forall id | id in created ensures EmojiCreate(g, created[id]) in events {
      var i :| 0 <= i < |order| && order[i] == id;
      assert events[i] == EmojiCreate(g, created[id]);
    }
  }

  lemma CreateEventsOnlyCreated(g: ID, created: map<ID, Emoji>, order: seq<ID>)
    requires forall i :: 0 <= i < |order| ==> order[i] in created
    ensures forall e :: e in CreateEvents(g, created, order) ==> e.EmojiCreate? && e.guildID == g && e.emoji in created.Values
  {
    var events := CreateEvents(g, created, order);
    CreateEventsAt(g, created, order);
    forall e | e in events ensures e.EmojiCreate? && e.guildID == g && e.emoji in created.Values {
      var i :| 0 <= i < |events| && events[i] == e;
      assert created[order[i]] in created.Values;
    }
  }

  /** Event i of the updated loop is the EmojiUpdate of the i-th key ranged over. */
  lemma {:induction false} UpdateEventsAt(g: ID, updated: map<ID, (Emoji, Emoji)>, order: seq<ID>)
    requires forall i :: 0 <= i < |order| ==> order[i] in updated
    ensures |UpdateEvents(g, updated, order)| == |order|
    ensures forall i :: 0 <= i < |order| ==> UpdateEvents(g, updated, order)[i] == EmojiUpdate(g, updated[order[i]].1, updated[order[i]].0)
    decreases |order|
  {
    if order != [] {
      UpdateEventsAt(g, updated, order[..|order| - 1]);
    }
  }

  /** Whatever order the map is ranged in, every updated emoji is announced once with its old value, and nothing else is. */
  lemma UpdateEventsCover(g: ID, updated: map<ID, (Emoji, Emoji)>, order: seq<ID>)
    requires Enumerates(order, updated.Keys)
    ensures |UpdateEvents(g, updated, order)| == |updated|
    ensures forall id :: id in updated ==> EmojiUpdate(g, updated[id].1, updated[id].0) in UpdateEvents(g, updated, order)
    ensures forall e :: e in UpdateEvents(g, updated, order) ==> e.EmojiUpdate? && e.guildID == g && (e.oldEmoji, e.emoji) in updated.Values
  {
    UpdateEventsAt(g, updated, order);
    EnumeratesCardinality(order, updated.Keys);
    UpdateEventsAnnounceAll(g, updated, order);
    UpdateEventsOnlyUpdated(g, updated, order);
  }

  lemma UpdateEventsAnnounceAll(g: ID, updated: map<ID, (Emoji, Emoji)>, order: seq<ID>)
    requires forall i :: 0 <= i < |order| ==> order[i] in updated
    requires forall id :: id in updated ==> id in order
    ensures forall id :: id in updated ==> EmojiUpdate(g, updated[id].1, updated[id].0) in UpdateEvents(g, updated, order)
  {
    var events := UpdateEvents(g, updated, order);
    UpdateEventsAt(g, updated, order);
    forall id | id in updated ensures EmojiUpdate(g, updated[id].1, updated[id].0) in events {
      var i :| 0 <= i < |order| && order[i] == id;
      assert events[i] == EmojiUpdate(g, updated[id].1, updated[id].0);
    }
  }

  lemma UpdateEventsOnlyUpdated(g: ID, updated: map<ID, (Emoji, Emoji)>, order: seq<ID>)
    requires forall i :: 0 <= i < |order| ==> order[i] in updated
    ensures forall e :: e in UpdateEvents(g, updated, order) ==> e.EmojiUpdate? && e.guildID == g && (e.oldEmoji, e.emoji) in updated.Values
  {
    var events := UpdateEvents(g, updated, order);
    UpdateEventsAt(g, updated, order);
    forall e | e in events ensures e.EmojiUpdate? && e.guildID == g && (e.oldEmoji, e.emoji) in updated.Values {
      var i :| 0 <= i < |events| && events[i] == e;
      var pair := updated[order[i]];
      assert pair in updated.Values;
      assert e == EmojiUpdate(g, pair.1, pair.0);
      assert (e.oldEmoji, e.emoji) == pair;
    }
  }

  /** Event i of the deleted loop is the EmojiDelete of the i-th key ranged over. */
  lemma {:induction false} DeleteEventsAt(g: ID, deleted: map<ID, Emoji>, order: seq<ID>)
    requires forall i :: 0 <= i < |order| ==> order[i] in deleted
    ensures |DeleteEvents(g, deleted, order)| == |order|
    ensures forall i :: 0 <= i < |order| ==> DeleteEvents(g, deleted, order)[i] == EmojiDelete(g, deleted[order[i]])
    decreases |order|
  {
    if order != [] {
      DeleteEventsAt(g, deleted, order[..|order| - 1]);
    }
  }

  /** Whatever order the map is ranged in, every deleted emoji is announced once, and nothing else is. */
  lemma DeleteEventsCover(g: ID, deleted: map<ID, Emoji>, order: seq<ID>)
    requires Enumerates(order, deleted.Keys)
    ensures |DeleteEvents(g, deleted, order)| == |deleted|
    ensures forall id :: id in deleted ==> EmojiDelete(g, deleted[id]) in DeleteEvents(g, deleted, order)
    ensures forall e :: e in DeleteEvents(g, deleted, order) ==> e.EmojiDelete? && e.guildID == g && e.emoji in deleted.Values
  {
    DeleteEventsAt(g, deleted, order);
    EnumeratesCardinality(order, deleted.Keys);
    DeleteEventsAnnounceAll(g, deleted, order);
    DeleteEventsOnlyDeleted(g, deleted, order);
  }

  lemma DeleteEventsAnnounceAll(g: ID, deleted: map<ID, Emoji>, order: seq<ID>)
    requires forall i :: 0 <= i < |order| ==> order[i] in deleted
    requires forall id :: id in deleted ==> id in order
    ensures forall id :: id in deleted ==> EmojiDelete(g, deleted[id]) in DeleteEvents(g, deleted, order)
  {
    var events := DeleteEvents(g, deleted, order);
    DeleteEventsAt(g, deleted, order);
    forall id | id in deleted ensures EmojiDelete(g, deleted[id]) in events {
      var i :| 0 <= i < |order| && order[i] == id;
      assert events[i] == EmojiDelete(g, deleted[id]);
    }
  }

  lemma DeleteEventsOnlyDeleted(g: ID, deleted: map<ID, Emoji>, order: seq<ID>)
    requires forall i :: 0 <= i < |order| ==> order[i] in deleted
    ensures forall e :: e in DeleteEvents(g, deleted, order) ==> e.EmojiDelete? && e.guildID == g && e.emoji in deleted.Values
  {
    var events := DeleteEvents(g, deleted, order);
    DeleteEventsAt(g, deleted, order);
    forall e | e in events ensures e.EmojiDelete? && e.guildID == g && e.emoji in deleted.Values {
      var i :| 0 <= i < |events| && events[i] == e;
      assert deleted[order[i]] in deleted.Values;
    }
  }

  /** Every emoji of the event carries the event's guild ID, as UnmarshalGuildEmojisUpdate leaves it. */
  predicate Stamped(event: GuildEmojisUpdate)
  {
    forall i :: 0 <= i < |event.emojis| ==> event.emojis[i].guildID == event.guildID
  }

  /** The emojis the range over Caches.Emojis(guildID) collects, keyed by emoji ID. */
  method CachedEmojis(c: Caches, guildID: ID) returns (cached: map<ID, Emoji>)
    requires c.EmojisKeyed()
    ensures cached == Group(c.emojis, guildID)
  {
    var list := c.Emojis(guildID);
    cached := map[];
    assert forall j :: 0 <= j < |list| ==> (guildID, list[j].ID()) in c.emojis && c.emojis[(guildID, list[j].ID())] == list[j] by {
      forall j | 0 <= j < |list| ensures (guildID, list[j].ID()) in c.emojis && c.emojis[(guildID, list[j].ID())] == list[j] {
        assert list[j] in list;
        var id :| (guildID, id) in c.emojis && c.emojis[(guildID, id)] == list[j];
      }
    }
    for i := 0 to |list|
      invariant forall id :: id in cached ==> (guildID, id) in c.emojis && cached[id] == c.emojis[(guildID, id)]
      invariant forall j :: 0 <= j < i ==> list[j].ID() in cached
    {
      var emoji := list[i];
      cached := cached[emoji.ID() := emoji];
    }
    forall id | (guildID, id) in c.emojis ensures id in cached {
      assert c.emojis[(guildID, id)] in list;
      var j :| 0 <= j < |list| && list[j] == c.emojis[(guildID, id)];
    }
  }

  /** The loop over the event's emojis, filling the created, updated and deleted maps. */
  method Diff(cached: map<ID, Emoji>, emojis: seq<Emoji>) returns (d: ExpressionDiffs.Diff<Emoji>)
    ensures d == DiffOf(cached, emojis, EmojiID, IsEmojiUpdated)
  {
    var created: map<ID, Emoji> := map[];
    var updated: map<ID, (Emoji, Emoji)> := map[];
    var deleted: map<ID, Emoji> := cached;
    for i := 0 to |emojis|
      invariant ExpressionDiffs.Diff(created, updated, deleted) == DiffOf(cached, emojis[..i], EmojiID, IsEmojiUpdated)
    {
      assert emojis[..i + 1][..i] == emojis[..i];
      var newEmoji := emojis[i];
      if newEmoji.ID() in deleted {
        var oldEmoji := deleted[newEmoji.ID()];
        deleted := deleted - {newEmoji.ID()};
        if IsEmojiUpdated(oldEmoji, newEmoji) {
          updated := updated[newEmoji.ID() := (oldEmoji, newEmoji)];
        }
      } else {
        created := created[newEmoji.ID() := newEmoji];
      }
    }
    assert emojis[..|emojis|] == emojis;
    d := ExpressionDiffs.Diff(created, updated, deleted);
  }

  /** The created loop: each created emoji is added to the cache and announced. */
  method DispatchCreated(c: Caches, g: ID, created: map<ID, Emoji>) returns (events: seq<BotEvent>, ghost order: seq<ID>)
    requires forall id :: id in created ==> created[id].guildID == g && created[id].ID() == id
    modifies c
    ensures Enumerates(order, created.Keys)
    ensures events == CreateEvents(g, created, order)
    ensures c.State() == old(c.State()).(emojis := old(c.emojis) + InGroup(g, created))
  {
    var ks := Enumerate(created.Keys);
    events := [];
    for j := 0 to |ks|
      invariant c.State() == old(c.State()).(emojis := WriteEach(old(c.emojis), g, created, ks[..j]))
      invariant events == CreateEvents(g, created, ks[..j])
    {
      var emoji := created[ks[j]];
      c.AddEmoji(emoji);
      events := events + [EmojiCreate(g, emoji)];
      assert ks[..j + 1][..j] == ks[..j];
    }
    assert ks[..|ks|] == ks;
    WriteEachAll(old(c.emojis), g, created, ks);
    order := ks;
  }

  /** The updated loop: each updated emoji's new value is written to the cache and announced with the old one. */
  method DispatchUpdated(c: Caches, g: ID, updated: map<ID, (Emoji, Emoji)>) returns (events: seq<BotEvent>, ghost order: seq<ID>)
    requires forall id :: id in updated ==> updated[id].1.guildID == g && updated[id].1.ID() == id
    modifies c
    ensures Enumerates(order, updated.Keys)
    ensures events == UpdateEvents(g, updated, order)
    ensures c.State() == old(c.State()).(emojis := old(c.emojis) + InGroup(g, NewValues(updated)))
  {
    var ks := Enumerate(updated.Keys);
    ghost var news := NewValues(updated);
    events := [];
    for j := 0 to |ks|
      invariant c.State() == old(c.State()).(emojis := WriteEach(old(c.emojis), g, news, ks[..j]))
      invariant events == UpdateEvents(g, updated, ks[..j])
    {
      var emoji := updated[ks[j]];
      c.AddEmoji(emoji.1);
      events := events + [EmojiUpdate(g, emoji.1, emoji.0)];
      assert ks[..j + 1][..j] == ks[..j];
    }
    assert ks[..|ks|] == ks;
    WriteEachAll(old(c.emojis), g, news, ks);
    order := ks;
  }

  /** The deleted loop: each deleted emoji is removed from the cache and announced. */
  method DispatchDeleted(c: Caches, g: ID, deleted: map<ID, Emoji>) returns (events: seq<BotEvent>, ghost order: seq<ID>)
    requires forall id :: id in deleted ==> deleted[id].ID() == id
    modifies c
    ensures Enumerates(order, deleted.Keys)
    ensures events == DeleteEvents(g, deleted, order)
    ensures c.State() == old(c.State()).(emojis := old(c.emojis) - KeysInGroup(g, deleted.Keys))
  {
    var ks := Enumerate(deleted.Keys);
    events := [];
    for j := 0 to |ks|
      invariant c.State() == old(c.State()).(emojis := RemoveEach(old(c.emojis), g, ks[..j]))
      invariant events == DeleteEvents(g, deleted, ks[..j])
    {
      var emoji := deleted[ks[j]];
      c.RemoveEmoji(g, emoji.ID());
      events := events + [EmojiDelete(g, emoji)];
      assert ks[..j + 1][..j] == ks[..j];
    }
    assert ks[..|ks|] == ks;
    RemoveEachAll(old(c.emojis), g, deleted.Keys, ks);
    order := ks;
  }

  /** Applying a diff whose created and updated emojis belong to the group keeps every emoji under its own key. */
  lemma AfterDiffKeyed(m: map<Key, Emoji>, g: ID, d: ExpressionDiffs.Diff<Emoji>)
    requires KeyedEmojis(m)
    requires forall id :: id in d.created ==> d.created[id].guildID == g && d.created[id].ID() == id
    requires forall id :: id in d.updated ==> d.updated[id].1.guildID == g && d.updated[id].1.ID() == id
    ensures KeyedEmojis(AfterDiff(m, g, d))
  {
  }

  /** gatewayHandlerGuildEmojisUpdate */
  method HandleGuildEmojisUpdate(c: Caches, event: GuildEmojisUpdate)
      returns (events: seq<BotEvent>, ghost createdOrder: seq<ID>, ghost updatedOrder: seq<ID>, ghost deletedOrder: seq<ID>)
    requires c.EmojisKeyed()
    requires Stamped(event)
    modifies c
    ensures c.EmojisKeyed()
    ensures FlagEmojis !in old(c.cacheFlags) ==> events == [EmojisUpdate(event)] && c.State() == old(c.State())
    ensures FlagEmojis in old(c.cacheFlags) ==>
              var d := DiffOf(Group(old(c.emojis), event.guildID), event.emojis, EmojiID, IsEmojiUpdated);
              && Enumerates(createdOrder, d.created.Keys)
              && Enumerates(updatedOrder, d.updated.Keys)
              && Enumerates(deletedOrder, d.deleted.Keys)
              && events == [EmojisUpdate(event)]
                           + CreateEvents(event.guildID, d.created, createdOrder)
                           + UpdateEvents(event.guildID, d.updated, updatedOrder)
                           + DeleteEvents(event.guildID, d.deleted, deletedOrder)
              && c.State() == old(c.State()).(emojis := AfterDiff(old(c.emojis), event.guildID, d))
  {
    events := [EmojisUpdate(event)];
    createdOrder, updatedOrder, deletedOrder := [], [], [];
    if c.Missing(FlagEmojis) {
      return;
    }
    var g := event.guildID;
    var cached := CachedEmojis(c, g);
    var d := Diff(cached, event.emojis);
    assert forall id :: id in d.created ==> d.created[id].guildID == g;
    assert forall id :: id in d.updated ==> d.updated[id].1.guildID == g;
    AfterDiffKeyed(c.emojis, g, d);
    var createEvents, updateEvents, deleteEvents;
    createEvents, createdOrder := DispatchCreated(c, g, d.created);
    updateEvents, updatedOrder := DispatchUpdated(c, g, d.updated);
    deleteEvents, deletedOrder := DispatchDeleted(c, g, d.deleted);
    events := events + createEvents + updateEvents + deleteEvents;
  }

  /**
   * With distinct emoji IDs in the event, after the handler's writes every listed emoji is cached
   * under its guild and ID; it replaces the cached one only when it was renamed, so a cached
   * emoji whose name is unchanged keeps its cached value (AfterDiffKeys and AfterDiffOtherGroups
   * give the rest of the new group and the other groups).
   */
  lemma EmojisUpdateReplacesRenamed(m: map<Key, Emoji>, event: GuildEmojisUpdate, i: int)
    requires DistinctIDs(event.emojis, EmojiID)
    requires 0 <= i < |event.emojis|
    ensures var r := AfterDiff(m, event.guildID, DiffOf(Group(m, event.guildID), event.emojis, EmojiID, IsEmojiUpdated));
            var k := (event.guildID, event.emojis[i].ID());
            k in r && r[k] == if k in m && m[k].partial.name == event.emojis[i].partial.name then m[k] else event.emojis[i]
  {
    AfterDiffValue(m, event.guildID, event.emojis, EmojiID, IsEmojiUpdated, i);
  }
}
