/**
 Consequences of the reference definition of `prepare_transforms`: which keys
 exist, where each row's transforms end up, which keys are left alone, that a
 transform is always filed under its own source code, and what the second
 call in the plugin's constructor does.
 */
module CatalogFacts {
  import opened Optional
  import opened Text
  import opened Registry
  import opened Catalog
  import opened CatalogTheory

  // ---------------------------------------------------------------------
  // Which keys a row produces
  // ---------------------------------------------------------------------

  /** `k` is a key the row `e` produces: a zone key of its source, or its one unzoned key. */
  predicate RowKey(t: Tables, e: AdjEntry, k: string)
    requires e.source in t.epsgs
  {
    if t.epsgs[e.source].utm then ZoneOfKey(e.source, k).Some?
    else k == CatalogKey(e.source, None)
  }

  lemma ZoneKeysStep(key: string, n: nat, k: string)
    requires 0 < n <= |AvailableZones|
    requires k != CatalogKey(key, Some(AvailableZones[n - 1]))
    ensures k in ZoneKeys(key, n) <==> k in ZoneKeys(key, n - 1)
  {
  }

  /** Each of the first `n` zone keys names one of the first `n` zones. */
  lemma {:induction false} ZoneKeysNameZones(key: string, n: nat, k: string)
    requires n <= |AvailableZones|
    requires k in ZoneKeys(key, n)
    ensures ZoneOfKey(key, k).Some? && ZoneOfKey(key, k).value < FirstZone + n
  {
    var z := AvailableZones[n - 1];
    AvailableZoneAt(n - 1);
    if k == CatalogKey(key, Some(z)) {
      ZoneOfKeyRoundTrip(key, k, z);
    } else {
      ZoneKeysStep(key, n, k);
      ZoneKeysNameZones(key, n - 1, k);
    }
  }

  /** A key naming one of the first `n` zones is among the first `n` zone keys. */
  lemma {:induction false} ZoneKeysCover(key: string, n: nat, k: string, z: Zone)
    requires n <= |AvailableZones|
    requires ZoneOfKey(key, k) == Some(z) && z < FirstZone + n
    ensures k in ZoneKeys(key, n)
  {
    ZoneOfKeyRoundTrip(key, k, z);
    if z != FirstZone + n - 1 {
      ZoneKeysCover(key, n - 1, k, z);
    } else {
      AvailableZoneAt(n - 1);
    }
  }

  /** The first `n` zone keys of a datum are exactly the keys naming one of those zones. */
  lemma ZoneKeysMembers(key: string, n: nat, k: string)
    requires n <= |AvailableZones|
    ensures k in ZoneKeys(key, n) <==> ZoneOfKey(key, k).Some? && ZoneOfKey(key, k).value < FirstZone + n
  {
    if k in ZoneKeys(key, n) {
      ZoneKeysNameZones(key, n, k);
    } else if ZoneOfKey(key, k).Some? && ZoneOfKey(key, k).value < FirstZone + n {
      ZoneKeysCover(key, n, k, ZoneOfKey(key, k).value);
    }
  }

  lemma EntryKeysMembers(t: Tables, e: AdjEntry, k: string)
    requires e.source in t.epsgs
    ensures k in EntryKeys(t, e) <==> RowKey(t, e, k)
  {
    if t.epsgs[e.source].utm {
      ZoneKeysMembers(e.source, |AvailableZones|, k);
    }
  }

  lemma {:induction false} ProducedKeysMembers(t: Tables, entries: seq<AdjEntry>, k: string)
    requires forall e :: e in entries ==> e.source in t.epsgs
    ensures k in ProducedKeys(t, entries) <==> exists e :: e in entries && RowKey(t, e, k)
  {
    if entries != [] {
      var prefix := entries[..|entries| - 1];
      var last := entries[|entries| - 1];
      assert entries == prefix + [last];
      ProducedKeysMembers(t, prefix, k);
      EntryKeysMembers(t, last, k);
    }
  }

  /**
   After `prepare_transforms` a key exists exactly when it existed before or
   some row produces it: every zone key 49..56 of a UTM source, the single
   unzoned key of any other source.
   */
  lemma PrepareTransformsKeys(c: Catalog, t: Tables, k: string)
    requires WellFormed(t)
    ensures k in PrepareTransforms(c, t) <==> k in c || exists e :: e in t.transformations && RowKey(t, e, k)
  {
    PrepareTransformsLookup(c, t, k);
    ProducedKeysMembers(t, t.transformations, k);
  }

  // ---------------------------------------------------------------------
  // Where a row's transforms end up
  // ---------------------------------------------------------------------

  /** `a` occurs in `b` as a contiguous block starting at index `i`. */
  predicate InfixAt<T(==)>(a: seq<T>, b: seq<T>, i: int)
  {
    0 <= i && i + |a| <= |b| && b[i..i + |a|] == a
  }

  predicate Infix<T(==)>(a: seq<T>, b: seq<T>)
  {
    exists i :: 0 <= i <= |b| && InfixAt(a, b, i)
  }

  lemma InfixExtend<T>(a: seq<T>, b: seq<T>, i: int, before: seq<T>, after: seq<T>)
    requires InfixAt(a, b, i)
    ensures InfixAt(a, before + b + after, |before| + i)
  {
    var s := before + b + after;
    assert s[|before| + i..|before| + i + |a|] == b[i..i + |a|];
  }

  /** The transforms a row files under `k` form one block of what all the rows file there. */
  lemma {:induction false} ContributionHasEntry(t: Tables, entries: seq<AdjEntry>, j: nat, k: string)
    requires forall e :: e in entries ==> EntryOk(t, e)
    requires j < |entries|
    ensures Infix(EntryContribution(t, entries[j], k), Contribution(t, entries, k))
  {
    var prefix := entries[..|entries| - 1];
    var mine := EntryContribution(t, entries[j], k);
    var latest := EntryContribution(t, entries[|entries| - 1], k);
    if j == |entries| - 1 {
      assert InfixAt(mine, mine, 0);
      InfixExtend(mine, mine, 0, [], Contribution(t, prefix, k));
      assert [] + mine + Contribution(t, prefix, k) == Contribution(t, entries, k);
    } else {
      assert forall e :: e in prefix ==> e in entries;
      assert prefix[j] == entries[j];
      ContributionHasEntry(t, prefix, j, k);
      var i :| InfixAt(mine, Contribution(t, prefix, k), i);
      InfixExtend(mine, Contribution(t, prefix, k), i, latest, []);
      assert latest + Contribution(t, prefix, k) + [] == Contribution(t, entries, k);
    }
  }

  /** A row's list for the key `CatalogKey(source, zone)`, as `build_transform` builds it. */
  lemma EntryContributionAtKey(t: Tables, e: AdjEntry, zone: Option<Zone>)
    requires EntryOk(t, e)
    requires zone.Some? <==> t.epsgs[e.source].utm
    ensures EntryContribution(t, e, CatalogKey(e.source, zone)) == BuildList(t, e.source, e.targets, zone)
  {
    if zone.Some? {
      ZoneOfKeyRoundTrip(e.source, CatalogKey(e.source, zone), zone.value);
    }
  }

  /** A block of `b` is a block of `b` followed by anything. */
  lemma InfixOfPrefix<T>(a: seq<T>, b: seq<T>, after: seq<T>)
    requires Infix(a, b)
    ensures Infix(a, b + after)
  {
    var i :| 0 <= i <= |b| && InfixAt(a, b, i);
    InfixExtend(a, b, i, [], after);
    assert [] + b + after == b + after;
  }

  /** For every zone of a UTM source, or without a zone otherwise, the row's key exists. */
  lemma PrepareTransformsHasRowKey(c: Catalog, t: Tables, e: AdjEntry, zone: Option<Zone>)
    requires WellFormed(t)
    requires e in t.transformations
    requires zone.Some? <==> t.epsgs[e.source].utm
    ensures CatalogKey(e.source, zone) in PrepareTransforms(c, t)
  {
    var k := CatalogKey(e.source, zone);
    assert RowKey(t, e, k) by {
      if zone.Some? {
        ZoneOfKeyRoundTrip(e.source, k, zone.value);
      }
    }
    PrepareTransformsKeys(c, t, k);
  }

  /**
   Nothing a row builds is lost: the list under the row's key holds the row's
   transforms, in target order, as one contiguous block.
   */
  lemma PrepareTransformsKeepsRow(c: Catalog, t: Tables, e: AdjEntry, zone: Option<Zone>)
    requires WellFormed(t)
    requires e in t.transformations
    requires zone.Some? <==> t.epsgs[e.source].utm
    ensures Infix(BuildList(t, e.source, e.targets, zone), Lookup(PrepareTransforms(c, t), CatalogKey(e.source, zone)))
  {
    var k := CatalogKey(e.source, zone);
    var j :| 0 <= j < |t.transformations| && t.transformations[j] == e;
    EntryContributionAtKey(t, e, zone);
    ContributionHasEntry(t, t.transformations, j, k);
    PrepareTransformsLookup(c, t, k);
    InfixOfPrefix(BuildList(t, e.source, e.targets, zone), Contribution(t, t.transformations, k), Lookup(c, k));
  }

  // ---------------------------------------------------------------------
  // Reading off a single key
  // ---------------------------------------------------------------------

  /** A row whose unzoned key differs from `k` at index `i` files nothing under `k`. */
  lemma EntryContributionOther(t: Tables, e: AdjEntry, k: string, i: nat)
    requires EntryOk(t, e)
    requires i < |CatalogKey(e.source, None)|
    requires i >= |k| || k[i] != CatalogKey(e.source, None)[i]
    ensures EntryContribution(t, e, k) == []
  {
    assert k != CatalogKey(e.source, None) + ZoneText(None);
  }

  lemma {:induction false} ContributionNone(t: Tables, entries: seq<AdjEntry>, k: string)
    requires forall e :: e in entries ==> EntryOk(t, e)
    requires forall i :: 0 <= i < |entries| ==> EntryContribution(t, entries[i], k) == []
    ensures Contribution(t, entries, k) == []
  {
    if entries != [] {
      var prefix := entries[..|entries| - 1];
      assert forall e :: e in prefix ==> e in entries;
      assert forall i :: 0 <= i < |prefix| ==> prefix[i] == entries[i];
      ContributionNone(t, prefix, k);
    }
  }

  /** When only row `j` files anything under `k`, the key holds exactly that row's list. */
  lemma {:induction false} ContributionOnly(t: Tables, entries: seq<AdjEntry>, k: string, j: nat)
    requires forall e :: e in entries ==> EntryOk(t, e)
    requires j < |entries|
    requires forall i :: 0 <= i < |entries| && i != j ==> EntryContribution(t, entries[i], k) == []
    ensures Contribution(t, entries, k) == EntryContribution(t, entries[j], k)
  {
    var prefix := entries[..|entries| - 1];
    assert forall e :: e in prefix ==> e in entries;
    assert forall i :: 0 <= i < |prefix| ==> prefix[i] == entries[i];
    if j == |entries| - 1 {
      ContributionNone(t, prefix, k);
    } else {
      ContributionOnly(t, prefix, k, j);
    }
  }

  /** When only rows `i < j` file anything under `k`, the key holds row `j`'s list, then row `i`'s. */
  lemma {:induction false} ContributionPair(t: Tables, entries: seq<AdjEntry>, k: string, i: nat, j: nat)
    requires forall e :: e in entries ==> EntryOk(t, e)
    requires i < j < |entries|
    requires forall n :: 0 <= n < |entries| && n != i && n != j ==> EntryContribution(t, entries[n], k) == []
    ensures Contribution(t, entries, k) == EntryContribution(t, entries[j], k) + EntryContribution(t, entries[i], k)
  {
    var prefix := entries[..|entries| - 1];
    assert forall e :: e in prefix ==> e in entries;
    assert forall n :: 0 <= n < |prefix| ==> prefix[n] == entries[n];
    if j == |entries| - 1 {
      ContributionOnly(t, prefix, k, i);
    } else {
      ContributionPair(t, prefix, k, i, j);
    }
  }

  // ---------------------------------------------------------------------
  // What is left alone
  // ---------------------------------------------------------------------

  /** A key some pair carries a non-empty list for is one of the pairs' keys. */
  lemma {:induction false} GatherLabelled<T>(items: seq<(string, seq<T>)>, k: string)
    requires Gather(items, k) != []
    ensures k in Labels(items)
  {
    if items[|items| - 1].0 != k {
      GatherLabelled(items[..|items| - 1], k);
    }
  }

  /**
   The previously stored list survives at the end of the new one, and a key
   no row produces keeps exactly its old list.
   */
  lemma PrepareTransformsKeepsOld(c: Catalog, t: Tables, k: string)
    requires WellFormed(t)
    ensures c.Keys <= PrepareTransforms(c, t).Keys
    ensures var now := Lookup(PrepareTransforms(c, t), k);
      |Lookup(c, k)| <= |now| && now[|now| - |Lookup(c, k)|..] == Lookup(c, k)
    ensures k !in ProducedKeys(t, t.transformations) ==> Lookup(PrepareTransforms(c, t), k) == Lookup(c, k)
  {
    PrepareTransformsLookup(c, t, k);
    BuildsGather(t, t.transformations, k);
    if Gather(Builds(t, t.transformations), k) != [] {
      GatherLabelled(Builds(t, t.transformations), k);
    }
  }

  // ---------------------------------------------------------------------
  // Provenance: a transform is filed under its own source code
  // ---------------------------------------------------------------------

  /**
   `k` is `"EPSG:<code>"` where `int(code)` is the transform's source code, and
   the transform's source display string ends with `"[<k>]"`.
   */
  predicate FiledUnderSource(k: string, x: Transform)
  {
    && |k| > 5 && k[..5] == "EPSG:"
    && IsCode(k[5..]) && DigitsValue(k[5..]) == x.sourceCode
    && |k| + 3 <= |x.sourceName| && x.sourceName[|x.sourceName| - |k| - 3..] == " [" + k + "]"
  }

  /** Every transform of the catalog is filed under its own source code. */
  predicate Provenanced(c: Catalog)
  {
    forall k, x :: k in c && x in c[k] ==> FiledUnderSource(k, x)
  }

  /** The key `"EPSG:" + code` splits back into its prefix and its code. */
  lemma KeySplits(code: string)
    ensures |"EPSG:" + code| >= 5
    ensures ("EPSG:" + code)[..5] == "EPSG:" && ("EPSG:" + code)[5..] == code
  {
  }

  /** A display string `"<name> [EPSG:<code>]"` ends with `" [" + key + "]"` for the key of the code. */
  lemma DisplayEndsWithKey(name: string, code: string)
    ensures var d := Display(name, code); var k := "EPSG:" + code;
      |k| + 3 <= |d| && d[|d| - |k| - 3..] == " [" + k + "]"
  {
    var k := "EPSG:" + code;
    assert Display(name, code) == name + (" [" + k + "]");
  }

  lemma CodeFiled(k: string, code: string, name: string, x: Transform)
    requires k == "EPSG:" + code && |code| > 0
    requires IsCode(code) && DigitsValue(code) == x.sourceCode
    requires x.sourceName == Display(name, code)
    ensures FiledUnderSource(k, x)
  {
    KeySplits(code);
    DisplayEndsWithKey(name, code);
  }

  lemma MakeTransformFiled(t: Tables, src: string, tgt: string, zone: Option<Zone>)
    requires DatumOk(t, src) && DatumOk(t, tgt)
    ensures FiledUnderSource(CatalogKey(src, zone), MakeTransform(t, src, tgt, zone))
  {
    CodeTextValue(src, zone);
    CodeFiled(CatalogKey(src, zone), CodeText(src, zone), t.epsgs[src].name, MakeTransform(t, src, tgt, zone));
  }

  /** The record `build_transform` makes for one target is filed under the row's key and goes to that target's zoned code. */
  lemma BuildTransformTargetFiled(t: Tables, e: AdjEntry, zone: Option<Zone>, i: nat)
    requires EntryOk(t, e) && i < |e.targets|
    ensures DatumOk(t, e.targets[i])
    ensures var r := BuildTransform(t, e, zone);
      && FiledUnderSource(r.0, r.1[i])
      && r.1[i].targetCode == ZonedCode(e.targets[i], zone)
  {
    assert e.targets[i] in e.targets;
    MakeTransformFiled(t, e.source, e.targets[i], zone);
  }

  /**
   `build_transform` returns the key its zone reads back from, and one record
   per target, each filed under that key and going to the target's zoned code.
   */
  lemma BuildTransformFiled(t: Tables, e: AdjEntry, zone: Option<Zone>)
    requires EntryOk(t, e)
    ensures var r := BuildTransform(t, e, zone);
      && (zone.Some? ==> ZoneOfKey(e.source, r.0) == zone)
      && |r.1| == |e.targets|
      && forall i :: 0 <= i < |r.1| ==>
           && DatumOk(t, e.targets[i])
           && FiledUnderSource(r.0, r.1[i])
           && r.1[i].targetCode == ZonedCode(e.targets[i], zone)
  {
    var r := BuildTransform(t, e, zone);
    if zone.Some? {
      ZoneOfKeyRoundTrip(e.source, r.0, zone.value);
    }
    forall i | 0 <= i < |r.1|
      ensures DatumOk(t, e.targets[i]) && FiledUnderSource(r.0, r.1[i]) && r.1[i].targetCode == ZonedCode(e.targets[i], zone)
    {
      BuildTransformTargetFiled(t, e, zone, i);
    }
  }

  lemma EntryContributionFiled(t: Tables, e: AdjEntry, k: string, x: Transform)
    requires EntryOk(t, e)
    requires x in EntryContribution(t, e, k)
    ensures FiledUnderSource(k, x)
  {
    var zone: Option<Zone>;
    if t.epsgs[e.source].utm {
      zone := Some(ZoneOfKey(e.source, k).value);
      ZoneOfKeyRoundTrip(e.source, k, zone.value);
    } else {
      zone := None;
    }
    var built := BuildList(t, e.source, e.targets, zone);
    assert k == CatalogKey(e.source, zone) && x in built;
    var i :| 0 <= i < |built| && built[i] == x;
    assert e.targets[i] in e.targets;
    MakeTransformFiled(t, e.source, e.targets[i], zone);
  }

  lemma {:induction false} ContributionFiled(t: Tables, entries: seq<AdjEntry>, k: string, x: Transform)
    requires forall e :: e in entries ==> EntryOk(t, e)
    requires x in Contribution(t, entries, k)
    ensures FiledUnderSource(k, x)
  {
    var prefix := entries[..|entries| - 1];
    var last := entries[|entries| - 1];
    if x in EntryContribution(t, last, k) {
      EntryContributionFiled(t, last, k, x);
    } else {
      assert forall e :: e in prefix ==> e in entries;
      ContributionFiled(t, prefix, k, x);
    }
  }

  /** `prepare_transforms` keeps every transform filed under its own source code. */
  lemma PrepareTransformsProvenanced(c: Catalog, t: Tables)
    requires WellFormed(t)
    requires Provenanced(c)
    ensures Provenanced(PrepareTransforms(c, t))
  {
    var r := PrepareTransforms(c, t);
    forall k, x | k in r && x in r[k] ensures FiledUnderSource(k, x) {
      PrepareTransformsLookup(c, t, k);
      assert r[k] == Contribution(t, t.transformations, k) + Lookup(c, k);
      if x in Contribution(t, t.transformations, k) {
        ContributionFiled(t, t.transformations, k, x);
      } else {
        assert k in c && x in c[k];
      }
    }
  }

  // ---------------------------------------------------------------------
  // The two calls in the plugin's constructor
  // ---------------------------------------------------------------------

  /** The catalog after one call on the empty class-level dictionary. */
  function OnePass(t: Tables): Catalog
    requires WellFormed(t)
  {
    PrepareTransforms(map[], t)
  }

  /** One pass from an empty catalog holds exactly the keys the rows produce. */
  lemma OnePassKeys(t: Tables)
    requires WellFormed(t)
    ensures forall k :: k in OnePass(t) <==> exists e :: e in t.transformations && RowKey(t, e, k)
  {
    forall k
      ensures k in OnePass(t) <==> exists e :: e in t.transformations && RowKey(t, e, k)
    {
      PrepareTransformsKeys(map[], t, k);
    }
  }

  /** The catalog the plugin actually uses: `prepare_transforms` runs twice. */
  function InitCatalog(t: Tables): Catalog
    requires WellFormed(t)
  {
    PrepareTransforms(OnePass(t), t)
  }

  /** The second call adds no key. */
  lemma InitCatalogKeys(t: Tables)
    requires WellFormed(t)
    ensures InitCatalog(t).Keys == OnePass(t).Keys
  {
    var empty: Catalog := map[];
    PrepareTransformsLookup(empty, t, "");
    PrepareTransformsLookup(OnePass(t), t, "");
  }

  /** The second call doubles every list: each key holds its first-pass list twice over. */
  lemma InitCatalogDoubles(t: Tables, k: string)
    requires WellFormed(t)
    ensures Lookup(InitCatalog(t), k) == Lookup(OnePass(t), k) + Lookup(OnePass(t), k)
  {
    var empty: Catalog := map[];
    PrepareTransformsLookup(empty, t, k);
    PrepareTransformsLookup(OnePass(t), t, k);
  }

  lemma InitCatalogDoublesAll(t: Tables)
    requires WellFormed(t)
    ensures forall k :: Lookup(InitCatalog(t), k) == Lookup(OnePass(t), k) + Lookup(OnePass(t), k)
  {
    forall k
      ensures Lookup(InitCatalog(t), k) == Lookup(OnePass(t), k) + Lookup(OnePass(t), k)
    {
      InitCatalogDoubles(t, k);
    }
  }

  lemma InitCatalogProvenanced(t: Tables)
    requires WellFormed(t)
    ensures Provenanced(InitCatalog(t))
  {
    PrepareTransformsProvenanced(map[], t);
    PrepareTransformsProvenanced(OnePass(t), t);
  }
}
