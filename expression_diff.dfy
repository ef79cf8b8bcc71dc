// The diff the emoji and sticker update handlers compute between the cached entities of a
// guild and the full list the gateway sends: every listed entity is new, updated, unchanged or
// re-listed, and every cached entity that is not listed is deleted.
module ExpressionDiffs {
  import opened Snowflakes

  /** The three maps the handlers fill: created by ID, (old, new) pairs by ID, deleted by ID. */
  datatype Diff<V> = Diff(created: map<ID, V>, updated: map<ID, (V, V)>, deleted: map<ID, V>)

  /** The IDs of the listed entities. */
  function ListedIDs<V>(vs: seq<V>, id: V -> ID): set<ID>
  {
    set i | 0 <= i < |vs| :: id(vs[i])
  }

  /** No two listed entities share an ID. */
  predicate DistinctIDs<V>(vs: seq<V>, id: V -> ID)
  {
    forall i, j :: 0 <= i < j < |vs| ==> id(vs[i]) != id(vs[j])
  }

  /**
   * The diff after the loop over the listed entities: deleted starts as the cached group; a
   * listed entity still in deleted is taken out of it and recorded as updated when changed says
   * so; any other listed entity is recorded as created (the last one listed with an ID wins).
   */
  function DiffOf<V>(cached: map<ID, V>, news: seq<V>, id: V -> ID, changed: (V, V) -> bool): (d: Diff<V>)
    ensures d.deleted.Keys == cached.Keys - ListedIDs(news, id)
    ensures forall k :: k in d.deleted ==> d.deleted[k] == cached[k]
    ensures forall k :: k in d.created ==> id(d.created[k]) == k && d.created[k] in news
    ensures forall k :: k in d.updated ==>
              k in cached && d.updated[k].0 == cached[k] && id(d.updated[k].1) == k && d.updated[k].1 in news
              && changed(d.updated[k].0, d.updated[k].1)
    decreases |news|
  {
    if news == [] then Diff(map[], map[], cached)
    else
      var init := news[..|news| - 1];
      var n := news[|news| - 1];
      var d := DiffOf(cached, init, id, changed);
      ListedSnoc(news, id);
      if id(n) in d.deleted then
        var o := d.deleted[id(n)];
        Diff(d.created, if changed(o, n) then d.updated[id(n) := (o, n)] else d.updated, d.deleted - {id(n)})
      else
        Diff(d.created[id(n) := n], d.updated, d.deleted)
  }

  /** Listing one more entity adds its ID. */
  lemma ListedSnoc<V>(news: seq<V>, id: V -> ID)
    requires news != []
    ensures ListedIDs(news, id) == ListedIDs(news[..|news| - 1], id) + {id(news[|news| - 1])}
  {
    var init := news[..|news| - 1];
    forall k | k in ListedIDs(news, id) ensures k in ListedIDs(init, id) + {id(news[|news| - 1])} {
      var i :| 0 <= i < |news| && id(news[i]) == k;
      if i < |init| {
        assert init[i] == news[i];
      }
    }
    forall k | k in ListedIDs(init, id) ensures k in ListedIDs(news, id) {
      var i :| 0 <= i < |init| && id(init[i]) == k;
      assert news[i] == init[i];
    }
  }

  /**
   * With distinct IDs in the list (as the gateway sends it) the diff is a partition of the
   * listed and cached IDs: the created ones are the listed IDs not cached, the updated ones are
   * both cached and listed, and the deleted ones are the cached IDs not listed.
   */
  lemma {:induction false} DiffPartitions<V>(cached: map<ID, V>, news: seq<V>, id: V -> ID, changed: (V, V) -> bool)
    requires DistinctIDs(news, id)
    ensures var d := DiffOf(cached, news, id, changed);
            d.created.Keys == ListedIDs(news, id) - cached.Keys
            && d.updated.Keys <= cached.Keys * ListedIDs(news, id)
            && d.deleted.Keys == cached.Keys - ListedIDs(news, id)
    decreases |news|
  {
    if news != [] {
      var init := news[..|news| - 1];
      assert DistinctIDs(init, id);
      DiffPartitions(cached, init, id, changed);
      ListedSnoc(news, id);
    }
  }

  /**
   * With distinct IDs, each listed entity lands where the handlers promise: created under its
   * ID when that ID is not cached; otherwise updated, paired with the cached value, exactly when
   * changed reports a difference.
   */
  lemma {:induction false} DiffPlacesEach<V>(cached: map<ID, V>, news: seq<V>, id: V -> ID, changed: (V, V) -> bool, i: int)
    requires DistinctIDs(news, id)
    requires 0 <= i < |news|
    ensures var d := DiffOf(cached, news, id, changed);
            (id(news[i]) !in cached ==> id(news[i]) in d.created && d.created[id(news[i])] == news[i])
            && (id(news[i]) in cached ==>
                  (id(news[i]) in d.updated <==> changed(cached[id(news[i])], news[i]))
                  && (id(news[i]) in d.updated ==> d.updated[id(news[i])] == (cached[id(news[i])], news[i])))
    decreases |news|
  {
    var init := news[..|news| - 1];
    var n := news[|news| - 1];
    assert DistinctIDs(init, id);
    var d0 := DiffOf(cached, init, id, changed);
    var d := DiffOf(cached, news, id, changed);
    var k := id(news[i]);
    if i < |init| {
      assert init[i] == news[i];
      assert k != id(n);
      DiffPlacesEach(cached, init, id, changed, i);
      assert k in d.created <==> k in d0.created;
      assert k in d.created ==> d.created[k] == d0.created[k];
      assert k in d.updated <==> k in d0.updated;
      assert k in d.updated ==> d.updated[k] == d0.updated[k];
    } else {
      DiffPlacesLast(cached, news, id, changed);
    }
  }

  /** DiffPlacesEach for the last listed entity. */
  lemma DiffPlacesLast<V>(cached: map<ID, V>, news: seq<V>, id: V -> ID, changed: (V, V) -> bool)
    requires DistinctIDs(news, id)
    requires news != []
    ensures var d := DiffOf(cached, news, id, changed);
            var n := news[|news| - 1];
            (id(n) !in cached ==> id(n) in d.created && d.created[id(n)] == n)
            && (id(n) in cached ==>
                  (id(n) in d.updated <==> changed(cached[id(n)], n))
                  && (id(n) in d.updated ==> d.updated[id(n)] == (cached[id(n)], n)))
  {
    var init := news[..|news| - 1];
    var n := news[|news| - 1];
    assert DistinctIDs(init, id);
    var d0 := DiffOf(cached, init, id, changed);
    var k := id(n);
    DiffPartitions(cached, init, id, changed);
    assert k !in ListedIDs(init, id) by {
      forall j | 0 <= j < |init| ensures id(init[j]) != k {
        assert init[j] == news[j];
      }
    }
    assert k !in d0.updated && k !in d0.created;
    if k in cached {
      assert k in d0.deleted && d0.deleted[k] == cached[k];
    }
  }

  // ---------------------------------------------------------------------------------------
  // Applying a diff to one group of a grouped cache

  /** The given entries, keyed under one group of a grouped cache. */
  function InGroup<V>(group: ID, vals: map<ID, V>): (r: map<(ID, ID), V>)
    ensures forall k: (ID, ID) :: k in r <==> k.0 == group && k.1 in vals
    ensures forall k: (ID, ID) :: k in r ==> r[k] == vals[k.1]
  {
    map id | id in vals :: (group, id) := vals[id]
  }

  /** The grouped-cache keys of the given IDs in one group. */
  function KeysInGroup(group: ID, ids: set<ID>): (r: set<(ID, ID)>)
    ensures forall k: (ID, ID) :: k in r <==> k.0 == group && k.1 in ids
  {
    set id | id in ids :: (group, id)
  }

  /** One group of a grouped cache, keyed by entity ID. */
  function Group<V>(m: map<(ID, ID), V>, group: ID): (r: map<ID, V>)
    ensures forall id :: id in r <==> (group, id) in m
    ensures forall id :: id in r ==> r[id] == m[(group, id)]
  {
    map id | id in (set k | k in m && k.0 == group :: k.1) :: m[(group, id)]
  }

  /** The new values of the updated entries. */
  function NewValues<V>(updated: map<ID, (V, V)>): (r: map<ID, V>)
    ensures r.Keys == updated.Keys
    ensures forall id :: id in r ==> r[id] == updated[id].1
  {
    map id | id in updated :: updated[id].1
  }

  /** The entries of vals whose IDs occur in ks. */
  function Restrict<V>(vals: map<ID, V>, ks: seq<ID>): map<ID, V>
  {
    map id | id in vals && id in ks :: vals[id]
  }

  /** The grouped cache after writing the entries of vals listed in ks into the group, one after the other. */
  function WriteEach<V>(m: map<(ID, ID), V>, group: ID, vals: map<ID, V>, ks: seq<ID>): map<(ID, ID), V>
    requires forall i :: 0 <= i < |ks| ==> ks[i] in vals
    decreases |ks|
  {
    if ks == [] then m
    else WriteEach(m, group, vals, ks[..|ks| - 1])[(group, ks[|ks| - 1]) := vals[ks[|ks| - 1]]]
  }

  /** The grouped cache after removing the listed IDs from the group, one after the other. */
  function RemoveEach<V>(m: map<(ID, ID), V>, group: ID, ks: seq<ID>): map<(ID, ID), V>
    decreases |ks|
  {
    if ks == [] then m
    else RemoveEach(m, group, ks[..|ks| - 1]) - {(group, ks[|ks| - 1])}
  }

  /** Writing the listed entries one by one is overlaying the group with those entries. */
  lemma {:induction false} WriteEachOverlays<V>(m: map<(ID, ID), V>, group: ID, vals: map<ID, V>, ks: seq<ID>)
    requires forall i :: 0 <= i < |ks| ==> ks[i] in vals
    ensures WriteEach(m, group, vals, ks) == m + InGroup(group, Restrict(vals, ks))
    decreases |ks|
  {
    if ks != [] {
      var init := ks[..|ks| - 1];
      var last := ks[|ks| - 1];
      WriteEachOverlays(m, group, vals, init);
      assert Restrict(vals, ks) == Restrict(vals, init)[last := vals[last]] by {
        assert ks == init + [last];
      }
    }
  }

  /** Removing the listed IDs one by one is removing their keys from the group. */
  lemma {:induction false} RemoveEachRemoves<V>(m: map<(ID, ID), V>, group: ID, ks: seq<ID>)
    ensures RemoveEach(m, group, ks) == m - KeysInGroup(group, set id | id in ks)
    decreases |ks|
  {
    if ks != [] {
      var init := ks[..|ks| - 1];
      var last := ks[|ks| - 1];
      RemoveEachRemoves(m, group, init);
      assert (set id | id in ks) == (set id | id in init) + {last} by {
        assert ks == init + [last];
      }
    }
  }

  /** Writing every entry of vals, in any order that lists each key, overlays the group with vals. */
  lemma WriteEachAll<V>(m: map<(ID, ID), V>, group: ID, vals: map<ID, V>, ks: seq<ID>)
    requires forall id :: id in ks <==> id in vals
    ensures WriteEach(m, group, vals, ks) == m + InGroup(group, vals)
  {
    WriteEachOverlays(m, group, vals, ks);
    assert Restrict(vals, ks) == vals;
  }

  /** Removing every listed ID, in any order, removes the keys of exactly those IDs. */
  lemma RemoveEachAll<V>(m: map<(ID, ID), V>, group: ID, ids: set<ID>, ks: seq<ID>)
    requires forall id :: id in ks <==> id in ids
    ensures RemoveEach(m, group, ks) == m - KeysInGroup(group, ids)
  {
    RemoveEachRemoves(m, group, ks);
    assert (set id | id in ks) == ids;
  }

  /**
   * The grouped cache after the emoji handler's three loops: the created entries are added,
   * then the new values of the updated ones, then the deleted IDs are removed.
   */
  function AfterDiff<V>(m: map<(ID, ID), V>, group: ID, d: Diff<V>): map<(ID, ID), V>
  {
    (m + InGroup(group, d.created) + InGroup(group, NewValues(d.updated))) - KeysInGroup(group, d.deleted.Keys)
  }

  /** Applying the diff of one group leaves every other group of the cache as it was. */
  lemma AfterDiffOtherGroups<V>(m: map<(ID, ID), V>, group: ID, d: Diff<V>)
    ensures var r := AfterDiff(m, group, d);
            forall k: (ID, ID) :: k.0 != group ==> (k in r <==> k in m) && (k in r ==> r[k] == m[k])
  {
  }

  /**
   * With distinct IDs in the list, applying the diff of a group against the list makes the
   * group hold exactly the listed IDs.
   */
  lemma AfterDiffKeys<V>(m: map<(ID, ID), V>, group: ID, news: seq<V>, id: V -> ID, changed: (V, V) -> bool)
    requires DistinctIDs(news, id)
    ensures var r := AfterDiff(m, group, DiffOf(Group(m, group), news, id, changed));
            forall x :: (group, x) in r <==> x in ListedIDs(news, id)
  {
    var cached := Group(m, group);
    var d := DiffOf(cached, news, id, changed);
    DiffPartitions(cached, news, id, changed);
  }

  /**
   * With distinct IDs in the list, each listed entity ends up in the group with its listed
   * value, except that a cached entry the change test finds unchanged keeps its cached value.
   */
  lemma AfterDiffValue<V>(m: map<(ID, ID), V>, group: ID, news: seq<V>, id: V -> ID, changed: (V, V) -> bool, i: int)
    requires DistinctIDs(news, id)
    requires 0 <= i < |news|
    ensures var r := AfterDiff(m, group, DiffOf(Group(m, group), news, id, changed));
            var k := (group, id(news[i]));
            k in r && r[k] == if k in m && !changed(m[k], news[i]) then m[k] else news[i]
  {
    var cached := Group(m, group);
    var d := DiffOf(cached, news, id, changed);
    var x := id(news[i]);
    assert x in ListedIDs(news, id);
    DiffPartitions(cached, news, id, changed);
    DiffPlacesEach(cached, news, id, changed, i);
  }

  /** Downstream of the diff, only the order the handlers range over each map is left open. */
  ghost predicate Enumerates(order: seq<ID>, keys: set<ID>)
  {
    (forall i, j :: 0 <= i < j < |order| ==> order[i] != order[j])
    && (forall k :: k in order <==> k in keys)
  }
}
