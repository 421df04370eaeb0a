/**
 What `prepare_transforms` computes, stated without the fold: the list stored
 under a key is the transforms every adjacency row contributes to that key,
 the latest row first, followed by what the catalog held before.
 */
module CatalogTheory {
  import opened Optional
  import opened Text
  import opened Registry
  import opened Catalog

  /** The keys of the first `n` available zones of a zoned datum. */
  function ZoneKeys(key: string, n: nat): set<string>
    requires n <= |AvailableZones|
  {
    if n == 0 then {} else ZoneKeys(key, n - 1) + {CatalogKey(key, Some(AvailableZones[n - 1]))}
  }

  /** The keys one adjacency row produces: one per available zone, or one unzoned key. */
  function EntryKeys(t: Tables, e: AdjEntry): set<string>
    requires e.source in t.epsgs
  {
    if t.epsgs[e.source].utm then ZoneKeys(e.source, |AvailableZones|)
    else {CatalogKey(e.source, None)}
  }

  /** The transforms one row files under `k`: those of the zone `k` names, if `k` is its key. */
  function EntryContribution(t: Tables, e: AdjEntry, k: string): seq<Transform>
    requires EntryOk(t, e)
  {
    if t.epsgs[e.source].utm then
      match ZoneOfKey(e.source, k)
      case Some(z) => BuildList(t, e.source, e.targets, Some(z))
      case None => []
    else if k == CatalogKey(e.source, None) then BuildList(t, e.source, e.targets, None)
    else []
  }

  /** The transforms a sequence of rows files under `k`, the latest row first. */
  function Contribution(t: Tables, entries: seq<AdjEntry>, k: string): seq<Transform>
    requires forall e :: e in entries ==> EntryOk(t, e)
  {
    if entries == [] then []
    else EntryContribution(t, entries[|entries| - 1], k) + Contribution(t, entries[..|entries| - 1], k)
  }

  function ProducedKeys(t: Tables, entries: seq<AdjEntry>): set<string>
    requires forall e :: e in entries ==> e.source in t.epsgs
  {
    if entries == [] then {}
    else ProducedKeys(t, entries[..|entries| - 1]) + EntryKeys(t, entries[|entries| - 1])
  }

  lemma AvailableZoneAt(i: int)
    requires 0 <= i < |AvailableZones|
    ensures AvailableZones[i] == FirstZone + i
  {
  }

  // ---------------------------------------------------------------------
  // Merging a sequence of pairs
  // ---------------------------------------------------------------------

  /** The lists the pairs `items` carry for `k`, the latest pair first. */
  function Gather<T>(items: seq<(string, seq<T>)>, k: string): seq<T>
  {
    if items == [] then []
    else (if items[|items| - 1].0 == k then items[|items| - 1].1 else []) + Gather(items[..|items| - 1], k)
  }

  /** The keys the pairs `items` carry. */
  function Labels<T>(items: seq<(string, seq<T>)>): set<string>
  {
    if items == [] then {} else Labels(items[..|items| - 1]) + {items[|items| - 1].0}
  }

  /** Merging in order puts each key's lists in front of the old one, the latest first. */
  lemma {:induction false} MergeAllLookup<T>(c: map<string, seq<T>>, items: seq<(string, seq<T>)>, k: string)
    ensures Lookup(MergeAll(c, items), k) == Gather(items, k) + Lookup(c, k)
  {
    if items != [] {
      var init, last := items[..|items| - 1], items[|items| - 1];
      MergeAllLookup(c, init, k);
      assert MergeAll(c, items) == Merge(MergeAll(c, init), last.0, last.1);
    }
  }

  /** Merging adds exactly the keys of the pairs. */
  lemma {:induction false} MergeAllKeys<T>(c: map<string, seq<T>>, items: seq<(string, seq<T>)>)
    ensures MergeAll(c, items).Keys == c.Keys + Labels(items)
  {
    if items != [] {
      MergeAllKeys(c, items[..|items| - 1]);
    }
  }

  lemma {:induction false} GatherAppend<T>(a: seq<(string, seq<T>)>, b: seq<(string, seq<T>)>, k: string)
    ensures Gather(a + b, k) == Gather(b, k) + Gather(a, k)
  {
    if b == [] {
      assert a + b == a;
    } else {
      assert (a + b)[..|a + b| - 1] == a + b[..|b| - 1];
      GatherAppend(a, b[..|b| - 1], k);
    }
  }

  lemma {:induction false} LabelsAppend<T>(a: seq<(string, seq<T>)>, b: seq<(string, seq<T>)>)
    ensures Labels(a + b) == Labels(a) + Labels(b)
  {
    if b == [] {
      assert a + b == a;
    } else {
      assert (a + b)[..|a + b| - 1] == a + b[..|b| - 1];
      LabelsAppend(a, b[..|b| - 1]);
    }
  }

  // ---------------------------------------------------------------------
  // The pairs of one row
  // ---------------------------------------------------------------------

  /** What the first `n` zones of a row file under `k`. */
  function ZonePart(t: Tables, e: AdjEntry, k: string, n: nat): seq<Transform>
    requires EntryOk(t, e)
  {
    match ZoneOfKey(e.source, k)
    case Some(z) => if z < FirstZone + n then BuildList(t, e.source, e.targets, Some(z)) else []
    case None => []
  }

  /** Pairs whose keys are pairwise different. */
  predicate DistinctLabels<T>(items: seq<(string, seq<T>)>)
  {
    forall i, j :: 0 <= i < j < |items| ==> items[i].0 != items[j].0
  }

  /** A key carried by exactly one pair gathers that pair's list. */
  lemma {:induction false} GatherUnique<T>(items: seq<(string, seq<T>)>, j: nat)
    requires j < |items| && DistinctLabels(items)
    ensures Gather(items, items[j].0) == items[j].1
  {
    var prefix := items[..|items| - 1];
    if j < |items| - 1 {
      assert prefix[j] == items[j];
      GatherUnique(prefix, j);
    } else {
      GatherAbsent(prefix, items[j].0);
    }
  }

  /** A key no pair carries gathers nothing. */
  lemma {:induction false} GatherAbsent<T>(items: seq<(string, seq<T>)>, k: string)
    requires forall i :: 0 <= i < |items| ==> items[i].0 != k
    ensures Gather(items, k) == []
  {
    if items != [] {
      var prefix := items[..|items| - 1];
      assert forall i :: 0 <= i < |prefix| ==> prefix[i] == items[i];
      GatherAbsent(prefix, k);
    }
  }

  /** Pairs filed, in order, under the keys of the first `|items|` zones of `src`. */
  predicate ZoneLabelled<T>(src: string, items: seq<(string, seq<T>)>)
  {
    && |items| <= |AvailableZones|
    && forall i :: 0 <= i < |items| ==> items[i].0 == CatalogKey(src, Some(AvailableZones[i]))
  }

  lemma ZoneLabelledDistinct<T>(src: string, items: seq<(string, seq<T>)>)
    requires ZoneLabelled(src, items)
    ensures DistinctLabels(items)
  {
    forall i, j | 0 <= i < j < |items| ensures items[i].0 != items[j].0 {
      AvailableZoneAt(i);
      AvailableZoneAt(j);
      if items[i].0 == items[j].0 {
        CatalogKeyInjective(src, AvailableZones[i], AvailableZones[j]);
      }
    }
  }

  /** For the key of a zone the pairs cover, the zone-labelled pairs gather that zone's list. */
  lemma ZoneLabelledHit<T>(src: string, items: seq<(string, seq<T>)>, z: Zone)
    requires ZoneLabelled(src, items)
    requires z < FirstZone + |items|
    ensures Gather(items, CatalogKey(src, Some(z))) == items[z - FirstZone].1
  {
    AvailableZoneAt(z - FirstZone);
    ZoneLabelledDistinct(src, items);
    GatherAt(items, z - FirstZone, CatalogKey(src, Some(z)));
  }

  lemma GatherAt<T>(items: seq<(string, seq<T>)>, i: nat, k: string)
    requires i < |items| && items[i].0 == k && DistinctLabels(items)
    ensures Gather(items, k) == items[i].1
  {
    GatherUnique(items, i);
  }

  /** For the key of a zone past the pairs, they gather nothing. */
  lemma ZoneLabelledBeyond<T>(src: string, items: seq<(string, seq<T>)>, z: Zone)
    requires ZoneLabelled(src, items)
    requires z >= FirstZone + |items|
    ensures Gather(items, CatalogKey(src, Some(z))) == []
  {
    var k := CatalogKey(src, Some(z));
    forall i | 0 <= i < |items| ensures items[i].0 != k {
      AvailableZoneAt(i);
      if items[i].0 == k {
        CatalogKeyInjective(src, z, AvailableZones[i]);
      }
    }
    GatherAbsent(items, k);
  }

  /** For a key that names no zone of `src`, they gather nothing. */
  lemma ZoneLabelledMiss<T>(src: string, items: seq<(string, seq<T>)>, k: string)
    requires ZoneLabelled(src, items)
    requires ZoneOfKey(src, k).None?
    ensures Gather(items, k) == []
  {
    forall i | 0 <= i < |items| ensures items[i].0 != k {
      ZoneOfKeyNone(src, k, AvailableZones[i]);
    }
    GatherAbsent(items, k);
  }

  lemma {:induction false} ZoneLabelledLabels<T>(src: string, items: seq<(string, seq<T>)>)
    requires ZoneLabelled(src, items)
    ensures Labels(items) == ZoneKeys(src, |items|)
  {
    if items != [] {
      var prefix := items[..|items| - 1];
      assert forall i :: 0 <= i < |prefix| ==> prefix[i] == items[i];
      ZoneLabelledLabels(src, prefix);
    }
  }

  lemma ZoneBuildsLabelled(t: Tables, e: AdjEntry, n: nat)
    requires EntryOk(t, e)
    requires n <= |AvailableZones|
    ensures ZoneLabelled(e.source, ZoneBuilds(t, e, n))
    ensures Labels(ZoneBuilds(t, e, n)) == ZoneKeys(e.source, n)
  {
    var items := ZoneBuilds(t, e, n);
    assert ZoneLabelled(e.source, items);
    ZoneLabelledLabels(e.source, items);
  }

  /** The key of a zone the loop has reached gathers that zone's list. */
  lemma ZoneBuildsHit(t: Tables, e: AdjEntry, n: nat, z: Zone)
    requires EntryOk(t, e)
    requires n <= |AvailableZones| && z < FirstZone + n
    ensures Gather(ZoneBuilds(t, e, n), CatalogKey(e.source, Some(z))) == BuildList(t, e.source, e.targets, Some(z))
  {
    var items := ZoneBuilds(t, e, n);
    ZoneBuildsLabelled(t, e, n);
    AvailableZoneAt(z - FirstZone);
    ZoneLabelledHit(e.source, items, z);
  }

  /** The key of a zone the loop has not reached, or of no zone, gathers nothing. */
  lemma ZoneBuildsMiss(t: Tables, e: AdjEntry, n: nat, k: string)
    requires EntryOk(t, e)
    requires n <= |AvailableZones|
    requires ZoneOfKey(e.source, k).None? || ZoneOfKey(e.source, k).value >= FirstZone + n
    ensures Gather(ZoneBuilds(t, e, n), k) == []
  {
    var items := ZoneBuilds(t, e, n);
    ZoneBuildsLabelled(t, e, n);
    if ZoneOfKey(e.source, k).Some? {
      var z := ZoneOfKey(e.source, k).value;
      ZoneOfKeyRoundTrip(e.source, k, z);
      ZoneLabelledBeyond(e.source, items, z);
    } else {
      ZoneLabelledMiss(e.source, items, k);
    }
  }

  lemma ZoneBuildsGather(t: Tables, e: AdjEntry, n: nat, k: string)
    requires EntryOk(t, e)
    requires n <= |AvailableZones|
    ensures Gather(ZoneBuilds(t, e, n), k) == ZonePart(t, e, k, n)
    ensures Labels(ZoneBuilds(t, e, n)) == ZoneKeys(e.source, n)
  {
    ZoneBuildsLabelled(t, e, n);
    match ZoneOfKey(e.source, k)
    case Some(z) =>
      if z < FirstZone + n {
        ZoneOfKeyRoundTrip(e.source, k, z);
        ZoneBuildsHit(t, e, n, z);
      } else {
        ZoneBuildsMiss(t, e, n, k);
      }
    case None =>
      ZoneBuildsMiss(t, e, n, k);
  }


  lemma EntryBuildsGather(t: Tables, e: AdjEntry, k: string)
    requires EntryOk(t, e)
    ensures Gather(EntryBuilds(t, e), k) == EntryContribution(t, e, k)
    ensures Labels(EntryBuilds(t, e)) == EntryKeys(t, e)
  {
    if t.epsgs[e.source].utm {
      ZoneBuildsGather(t, e, |AvailableZones|, k);
    } else {
      var items := EntryBuilds(t, e);
      assert items[..0] == [];
    }
  }

  // ---------------------------------------------------------------------
  // Every row
  // ---------------------------------------------------------------------

  lemma {:induction false} BuildsGather(t: Tables, entries: seq<AdjEntry>, k: string)
    requires forall e :: e in entries ==> EntryOk(t, e)
    ensures Gather(Builds(t, entries), k) == Contribution(t, entries, k)
    ensures Labels(Builds(t, entries)) == ProducedKeys(t, entries)
  {
    if entries != [] {
      var prefix := entries[..|entries| - 1];
      var last := entries[|entries| - 1];
      assert forall e :: e in prefix ==> e in entries;
      BuildsGather(t, prefix, k);
      EntryBuildsGather(t, last, k);
      GatherAppend(Builds(t, prefix), EntryBuilds(t, last), k);
      LabelsAppend(Builds(t, prefix), EntryBuilds(t, last));
    }
  }

  /** `prepare_transforms` on any existing catalog. */
  lemma PrepareTransformsLookup(c: Catalog, t: Tables, k: string)
    requires WellFormed(t)
    ensures Lookup(PrepareTransforms(c, t), k) == Contribution(t, t.transformations, k) + Lookup(c, k)
    ensures PrepareTransforms(c, t).Keys == c.Keys + ProducedKeys(t, t.transformations)
  {
    MergeAllLookup(c, Builds(t, t.transformations), k);
    MergeAllKeys(c, Builds(t, t.transformations));
    BuildsGather(t, t.transformations, k);
  }
}
