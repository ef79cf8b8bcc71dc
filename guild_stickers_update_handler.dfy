// bot/handlers/guild_stickers_update_handler.go: the gateway sends the full sticker list of a
// guild; the handler diffs it against the cached stickers of that guild and dispatches one event
// per created, updated and deleted sticker. Unlike the emoji handler it never writes the
// differences back to the cache.
module GuildStickersUpdateHandler {
  import opened Wrappers
  import opened Snowflakes
  import opened Entities
  import opened GatewayEvents
  import opened Caches
  import opened BotEvents
  import opened ExpressionDiffs

  function StickerID(s: Sticker): ID
  {
    s.id
  }

  /**
   * isStickerUpdated: a sticker counts as updated iff its name, description or tag list changed.
   * Only a real change counts, and when nothing but those three can differ, every difference counts.
   */
  function IsStickerUpdated(o: Sticker, n: Sticker): (r: bool)
    ensures r ==> o != n
    ensures o.(name := n.name, description := n.description, tags := n.tags) == n ==> (r <==> o != n)
  {
    o.name != n.name || o.description != n.description || o.tags != n.tags
  }

  /** The StickerCreate events of the created loop, one per key in the order ranged over. */
  function CreateEvents(guildID: ID, created: map<ID, Sticker>, order: seq<ID>): seq<BotEvent>
    requires forall i :: 0 <= i < |order| ==> order[i] in created
  {
    if order == [] then []
    else CreateEvents(guildID, created, order[..|order| - 1]) + [StickerCreate(guildID, created[order[|order| - 1]])]
  }

  /** The StickerUpdate events of the updated loop, carrying the new and the old sticker. */
  function UpdateEvents(guildID: ID, updated: map<ID, (Sticker, Sticker)>, order: seq<ID>): seq<BotEvent>
    requires forall i :: 0 <= i < |order| ==> order[i] in updated
  {
    if order == [] then []
    else
      var e := updated[order[|order| - 1]];
      UpdateEvents(guildID, updated, order[..|order| - 1]) + [StickerUpdate(guildID, e.1, e.0)]
  }

  /** The StickerDelete events of the deleted loop. */
  function DeleteEvents(guildID: ID, deleted: map<ID, Sticker>, order: seq<ID>): seq<BotEvent>
    requires forall i :: 0 <= i < |order| ==> order[i] in deleted
  {
    if order == [] then []
    else DeleteEvents(guildID, deleted, order[..|order| - 1]) + [StickerDelete(guildID, deleted[order[|order| - 1]])]
  }

  /** Event i of the created loop is the StickerCreate of the i-th key ranged over. */
  lemma {:induction false} CreateEventsAt(g: ID, created: map<ID, Sticker>, order: seq<ID>)
    requires forall i :: 0 <= i < |order| ==> order[i] in created
    ensures |CreateEvents(g, created, order)| == |order|
    ensures forall i :: 0 <= i < |order| ==> CreateEvents(g, created, order)[i] == StickerCreate(g, created[order[i]])
    decreases |order|
  {
    if order != [] {
      CreateEventsAt(g, created, order[..|order| - 1]);
    }
  }

  /** Whatever order the map is ranged in, every created sticker is announced once, and nothing else is. */
  lemma CreateEventsCover(g: ID, created: map<ID, Sticker>, order: seq<ID>)
    requires Enumerates(order, created.Keys)
    ensures |CreateEvents(g, created, order)| == |created|
    ensures forall id :: id in created ==> StickerCreate(g, created[id]) in CreateEvents(g, created, order)
    ensures forall e :: e in CreateEvents(g, created, order) ==> e.StickerCreate? && e.guildID == g && e.sticker in created.Values
  {
    CreateEventsAt(g, created, order);
    EnumeratesCardinality(order, created.Keys);
    CreateEventsAnnounceAll(g, created, order);
    CreateEventsOnlyCreated(g, created, order);
  }

  lemma CreateEventsAnnounceAll(g: ID, created: map<ID, Sticker>, order: seq<ID>)
    requires forall i :: 0 <= i < |order| ==> order[i] in created
    requires forall id :: id in created ==> id in order
    ensures forall id :: id in created ==> StickerCreate(g, created[id]) in CreateEvents(g, created, order)
  {
    var events := CreateEvents(g, created, order);
    CreateEventsAt(g, created, order);
    forall id | id in created ensures StickerCreate(g, created[id]) in events {
      var i :| 0 <= i < |order| && order[i] == id;
      assert events[i] == StickerCreate(g, created[id]);
    }
  }

  lemma CreateEventsOnlyCreated(g: ID, created: map<ID, Sticker>, order: seq<ID>)
    requires forall i :: 0 <= i < |order| ==> order[i] in created
    ensures forall e :: e in CreateEvents(g, created, order) ==> e.StickerCreate? && e.guildID == g && e.sticker in created.Values
  {
    var events := CreateEvents(g, created, order);
    CreateEventsAt(g, created, order);
    forall e | e in events ensures e.StickerCreate? && e.guildID == g && e.sticker in created.Values {
      var i :| 0 <= i < |events| && events[i] == e;
      assert created[order[i]] in created.Values;
    }
  }

  /** Event i of the updated loop is the StickerUpdate of the i-th key ranged over. */
  lemma {:induction false} UpdateEventsAt(g: ID, updated: map<ID, (Sticker, Sticker)>, order: seq<ID>)
    requires forall i :: 0 <= i < |order| ==> order[i] in updated
    ensures |UpdateEvents(g, updated, order)| == |order|
    ensures forall i :: 0 <= i < |order| ==> UpdateEvents(g, updated, order)[i] == StickerUpdate(g, updated[order[i]].1, updated[order[i]].0)
    decreases |order|
  {
    if order != [] {
      UpdateEventsAt(g, updated, order[..|order| - 1]);
    }
  }

  /** Whatever order the map is ranged in, every updated sticker is announced once with its old value, and nothing else is. */
  lemma UpdateEventsCover(g: ID, updated: map<ID, (Sticker, Sticker)>, order: seq<ID>)
    requires Enumerates(order, updated.Keys)
    ensures |UpdateEvents(g, updated, order)| == |updated|
    ensures forall id :: id in updated ==> StickerUpdate(g, updated[id].1, updated[id].0) in UpdateEvents(g, updated, order)
    ensures forall e :: e in UpdateEvents(g, updated, order) ==> e.StickerUpdate? && e.guildID == g && (e.oldSticker, e.sticker) in updated.Values
  {
    UpdateEventsAt(g, updated, order);
    EnumeratesCardinality(order, updated.Keys);
    UpdateEventsAnnounceAll(g, updated, order);
    UpdateEventsOnlyUpdated(g, updated, order);
  }

  lemma UpdateEventsAnnounceAll(g: ID, updated: map<ID, (Sticker, Sticker)>, order: seq<ID>)
    requires forall i :: 0 <= i < |order| ==> order[i] in updated
    requires forall id :: id in updated ==> id in order
    ensures forall id :: id in updated ==> StickerUpdate(g, updated[id].1, updated[id].0) in UpdateEvents(g, updated, order)
  {
    var events := UpdateEvents(g, updated, order);
    UpdateEventsAt(g, updated, order);
    forall id | id in updated ensures StickerUpdate(g, updated[id].1, updated[id].0) in events {
      var i :| 0 <= i < |order| && order[i] == id;
      assert events[i] == StickerUpdate(g, updated[id].1, updated[id].0);
    }
  }

  lemma UpdateEventsOnlyUpdated(g: ID, updated: map<ID, (Sticker, Sticker)>, order: seq<ID>)
    requires forall i :: 0 <= i < |order| ==> order[i] in updated
    ensures forall e :: e in UpdateEvents(g, updated, order) ==> e.StickerUpdate? && e.guildID == g && (e.oldSticker, e.sticker) in updated.Values
  {
    var events := UpdateEvents(g, updated, order);
    UpdateEventsAt(g, updated, order);
    forall e | e in events ensures e.StickerUpdate? && e.guildID == g && (e.oldSticker, e.sticker) in updated.Values {
      var i :| 0 <= i < |events| && events[i] == e;
      var pair := updated[order[i]];
      assert pair in updated.Values;
      assert e == StickerUpdate(g, pair.1, pair.0);
      assert (e.oldSticker, e.sticker) == pair;
    }
  }

  /** Event i of the deleted loop is the StickerDelete of the i-th key ranged over. */
  lemma {:induction false} DeleteEventsAt(g: ID, deleted: map<ID, Sticker>, order: seq<ID>)
    requires forall i :: 0 <= i < |order| ==> order[i] in deleted
    ensures |DeleteEvents(g, deleted, order)| == |order|
    ensures forall i :: 0 <= i < |order| ==> DeleteEvents(g, deleted, order)[i] == StickerDelete(g, deleted[order[i]])
    decreases |order|
  {
    if order != [] {
      DeleteEventsAt(g, deleted, order[..|order| - 1]);
    }
  }

  /** Whatever order the map is ranged in, every deleted sticker is announced once, and nothing else is. */
  lemma DeleteEventsCover(g: ID, deleted: map<ID, Sticker>, order: seq<ID>)
    requires Enumerates(order, deleted.Keys)
    ensures |DeleteEvents(g, deleted, order)| == |deleted|
    ensures forall id :: id in deleted ==> StickerDelete(g, deleted[id]) in DeleteEvents(g, deleted, order)
    ensures forall e :: e in DeleteEvents(g, deleted, order) ==> e.StickerDelete? && e.guildID == g && e.sticker in deleted.Values
  {
    DeleteEventsAt(g, deleted, order);
    EnumeratesCardinality(order, deleted.Keys);
    DeleteEventsAnnounceAll(g, deleted, order);
    DeleteEventsOnlyDeleted(g, deleted, order);
  }

  lemma DeleteEventsAnnounceAll(g: ID, deleted: map<ID, Sticker>, order: seq<ID>)
    requires forall i :: 0 <= i < |order| ==> order[i] in deleted
    requires forall id :: id in deleted ==> id in order
    ensures forall id :: id in deleted ==> StickerDelete(g, deleted[id]) in DeleteEvents(g, deleted, order)
  {
    var events := DeleteEvents(g, deleted, order);
    DeleteEventsAt(g, deleted, order);
    forall id | id in deleted ensures StickerDelete(g, deleted[id]) in events {
      var i :| 0 <= i < |order| && order[i] == id;
      assert events[i] == StickerDelete(g, deleted[id]);
    }
  }

  lemma DeleteEventsOnlyDeleted(g: ID, deleted: map<ID, Sticker>, order: seq<ID>)
    requires forall i :: 0 <= i < |order| ==> order[i] in deleted
    ensures forall e :: e in DeleteEvents(g, deleted, order) ==> e.StickerDelete? && e.guildID == g && e.sticker in deleted.Values
  {
    var events := DeleteEvents(g, deleted, order);
    DeleteEventsAt(g, deleted, order);
    forall e | e in events ensures e.StickerDelete? && e.guildID == g && e.sticker in deleted.Values {
      var i :| 0 <= i < |events| && events[i] == e;
      assert deleted[order[i]] in deleted.Values;
    }
  }

  /** The stickers the range over Caches.Stickers(guildID) collects, keyed by sticker ID. */
  method CachedStickers(c: Caches, guildID: ID) returns (cached: map<ID, Sticker>)
    requires c.StickersKeyed()
    ensures cached == Group(c.stickers, guildID)
  {
    var list := c.Stickers(guildID);
    cached := map[];
    assert forall j :: 0 <= j < |list| ==> (guildID, list[j].id) in c.stickers && c.stickers[(guildID, list[j].id)] == list[j] by {
      forall j | 0 <= j < |list| ensures (guildID, list[j].id) in c.stickers && c.stickers[(guildID, list[j].id)] == list[j] {
        assert list[j] in list;
        var id :| (guildID, id) in c.stickers && c.stickers[(guildID, id)] == list[j];
      }
    }
    for i := 0 to |list|
      invariant forall id :: id in cached ==> (guildID, id) in c.stickers && cached[id] == c.stickers[(guildID, id)]
      invariant forall j :: 0 <= j < i ==> list[j].id in cached
    {
      var sticker := list[i];
      cached := cached[sticker.id := sticker];
    }
    forall id | (guildID, id) in c.stickers ensures id in cached {
      assert c.stickers[(guildID, id)] in list;
      var j :| 0 <= j < |list| && list[j] == c.stickers[(guildID, id)];
    }
  }

  /** The loop over the event's stickers, filling the created, updated and deleted maps. */
  method Diff(cached: map<ID, Sticker>, stickers: seq<Sticker>) returns (d: ExpressionDiffs.Diff<Sticker>)
    ensures d == DiffOf(cached, stickers, StickerID, IsStickerUpdated)
  {
    var created: map<ID, Sticker> := map[];
    var updated: map<ID, (Sticker, Sticker)> := map[];
    var deleted: map<ID, Sticker> := cached;
    for i := 0 to |stickers|
      invariant ExpressionDiffs.Diff(created, updated, deleted) == DiffOf(cached, stickers[..i], StickerID, IsStickerUpdated)
    {
      assert stickers[..i + 1][..i] == stickers[..i];
      var newSticker := stickers[i];
      if newSticker.id in deleted {
        var oldSticker := deleted[newSticker.id];
        deleted := deleted - {newSticker.id};
        if IsStickerUpdated(oldSticker, newSticker) {
          updated := updated[newSticker.id := (oldSticker, newSticker)];
        }
      } else {
        created := created[newSticker.id := newSticker];
      }
    }
    assert stickers[..|stickers|] == stickers;
    d := ExpressionDiffs.Diff(created, updated, deleted);
  }

  /** The created loop: one StickerCreate per created sticker. */
  method DispatchCreated(g: ID, created: map<ID, Sticker>) returns (events: seq<BotEvent>, ghost order: seq<ID>)
    ensures Enumerates(order, created.Keys)
    ensures events == CreateEvents(g, created, order)
    ensures |events| == |created|
    ensures forall id :: id in created ==> StickerCreate(g, created[id]) in events
    ensures forall e :: e in events ==> e.StickerCreate? && e.guildID == g && e.sticker in created.Values
  {
    var ks := Enumerate(created.Keys);
    events := [];
    for j := 0 to |ks|
      invariant events == CreateEvents(g, created, ks[..j])
    {
      events := events + [StickerCreate(g, created[ks[j]])];
      assert ks[..j + 1][..j] == ks[..j];
    }
    assert ks[..|ks|] == ks;
    order := ks;
    CreateEventsCover(g, created, order);
  }

  /** The updated loop: one StickerUpdate per updated sticker, with the new and the old value. */
  method DispatchUpdated(g: ID, updated: map<ID, (Sticker, Sticker)>) returns (events: seq<BotEvent>, ghost order: seq<ID>)
    ensures Enumerates(order, updated.Keys)
    ensures events == UpdateEvents(g, updated, order)
    ensures |events| == |updated|
    ensures forall id :: id in updated ==> StickerUpdate(g, updated[id].1, updated[id].0) in events
    ensures forall e :: e in events ==> e.StickerUpdate? && e.guildID == g && (e.oldSticker, e.sticker) in updated.Values
  {
    var ks := Enumerate(updated.Keys);
    events := [];
    for j := 0 to |ks|
      invariant events == UpdateEvents(g, updated, ks[..j])
    {
      var sticker := updated[ks[j]];
      events := events + [StickerUpdate(g, sticker.1, sticker.0)];
      assert ks[..j + 1][..j] == ks[..j];
    }
    assert ks[..|ks|] == ks;
    order := ks;
    UpdateEventsCover(g, updated, order);
  }

  /** The deleted loop: one StickerDelete per deleted sticker. */
  method DispatchDeleted(g: ID, deleted: map<ID, Sticker>) returns (events: seq<BotEvent>, ghost order: seq<ID>)
    ensures Enumerates(order, deleted.Keys)
    ensures events == DeleteEvents(g, deleted, order)
    ensures |events| == |deleted|
    ensures forall id :: id in deleted ==> StickerDelete(g, deleted[id]) in events
    ensures forall e :: e in events ==> e.StickerDelete? && e.guildID == g && e.sticker in deleted.Values
  {
    var ks := Enumerate(deleted.Keys);
    events := [];
    for j := 0 to |ks|
      invariant events == DeleteEvents(g, deleted, ks[..j])
    {
      events := events + [StickerDelete(g, deleted[ks[j]])];
      assert ks[..j + 1][..j] == ks[..j];
    }
    assert ks[..|ks|] == ks;
    order := ks;
    DeleteEventsCover(g, deleted, order);
  }

  /** gatewayHandlerGuildStickersUpdate: the cache is read, never written. */
  method HandleGuildStickersUpdate(c: Caches, event: GuildStickersUpdate)
      returns (events: seq<BotEvent>, ghost createdOrder: seq<ID>, ghost updatedOrder: seq<ID>, ghost deletedOrder: seq<ID>)
    requires c.StickersKeyed()
    ensures FlagStickers !in c.cacheFlags ==> events == [StickersUpdate(event)]
    ensures FlagStickers in c.cacheFlags ==>
              var d := DiffOf(Group(c.stickers, event.guildID), event.stickers, StickerID, IsStickerUpdated);
              && Enumerates(createdOrder, d.created.Keys)
              && Enumerates(updatedOrder, d.updated.Keys)
              && Enumerates(deletedOrder, d.deleted.Keys)
              && events == [StickersUpdate(event)]
                           + CreateEvents(event.guildID, d.created, createdOrder)
                           + UpdateEvents(event.guildID, d.updated, updatedOrder)
                           + DeleteEvents(event.guildID, d.deleted, deletedOrder)
  {
    events := [StickersUpdate(event)];
    createdOrder, updatedOrder, deletedOrder := [], [], [];
    if c.Missing(FlagStickers) {
      return;
    }
    var g := event.guildID;
    var cached := CachedStickers(c, g);
    var d := Diff(cached, event.stickers);
    var createEvents, updateEvents, deleteEvents;
    createEvents, createdOrder := DispatchCreated(g, d.created);
    updateEvents, updatedOrder := DispatchUpdated(g, d.updated);
    deleteEvents, deletedOrder := DispatchDeleted(g, d.deleted);
    events := events + createEvents + updateEvents + deleteEvents;
  }

  /**
   * With distinct sticker IDs in the event, each listed sticker is announced as created iff its
   * ID is not cached, and a cached one as updated, together with the cached value, iff its name,
   * description or tags changed; the deleted stickers are exactly the cached ones not listed.
   */
  lemma StickersUpdateClassifies(cached: map<Key, Sticker>, event: GuildStickersUpdate, i: int)
    requires DistinctIDs(event.stickers, StickerID)
    requires 0 <= i < |event.stickers|
    ensures var group := Group(cached, event.guildID);
            var d := DiffOf(group, event.stickers, StickerID, IsStickerUpdated);
            var s := event.stickers[i];
            && (s.id !in group ==> s.id in d.created && d.created[s.id] == s && s.id !in d.updated)
            && (s.id in group ==>
                  s.id !in d.created
                  && (s.id in d.updated <==>
                        group[s.id].name != s.name || group[s.id].description != s.description || group[s.id].tags != s.tags)
                  && (s.id in d.updated ==> d.updated[s.id] == (group[s.id], s)))
  {
    var group := Group(cached, event.guildID);
    DiffPartitions(group, event.stickers, StickerID, IsStickerUpdated);
    DiffPlacesEach(group, event.stickers, StickerID, IsStickerUpdated, i);
    assert event.stickers[i].id in ListedIDs(event.stickers, StickerID);
  }
}
